/**
 * What the first-person controller guarantees about stamina, sprinting,
 * regeneration, pitch, crouching and movement speed.
 */
module FirstPersonProperties {
  import opened UnityMath
  import opened FirstPersonMovement

  /**
   * A sprinting frame with movement input drains `staminaUseMultiplier * dt`,
   * stopping at zero, and forbids sprinting exactly when stamina is left empty.
   * The pending regeneration is cancelled; a fresh one is started in the same
   * frame only if sprinting has just been forbidden with stamina short of full.
   */
  lemma SprintDrainsStamina(cfg: Settings, b: Body, f: Frame)
    requires Valid(cfg, b) && 0.0 <= f.dt
    requires IsSprinting(b, f) && HasInput(b)
    ensures var b' := StaminaSpec(cfg, b, f);
      && b'.currentStamina == Max(0.0, b.currentStamina - cfg.staminaUseMultiplier * f.dt)
      && (b'.canSprint <==> b'.currentStamina > 0.0)
      && (b'.regenerating <==> !b'.canSprint && b'.currentStamina < cfg.maxStamina)
      && b'.regenRoutines <= 1
  {
  }

  /**
   * Outside a sprinting frame with input, stamina and the sprint flag are left
   * alone; a regeneration coroutine is started exactly when none runs, the player
   * is not sprinting and stamina is short of full, and a running one is kept.
   */
  lemma RegenerationStartsOnlyWhenIdle(cfg: Settings, b: Body, f: Frame)
    requires Valid(cfg, b) && 0.0 <= f.dt
    requires !(IsSprinting(b, f) && HasInput(b))
    ensures var b' := StaminaSpec(cfg, b, f);
      && b'.currentStamina == b.currentStamina
      && b'.canSprint == b.canSprint
      && (b'.regenerating <==>
            b.regenerating || (!IsSprinting(b, f) && b.currentStamina < cfg.maxStamina))
      && b'.regenRoutines <= 1
  {
  }

  /**
   * A regeneration step adds `staminaValueIncrement`, capped at `maxStamina`, and
   * allows sprinting again only if stamina was above zero before the step; once
   * stamina is full the next step ends the coroutine and clears its handle.
   */
  lemma RegenStepRefills(cfg: Settings, b: Body)
    requires Valid(cfg, b) && b.regenerating
    ensures var b' := RegenStep(cfg, b);
      && (b.currentStamina < cfg.maxStamina ==>
            b'.currentStamina == Min(cfg.maxStamina, b.currentStamina + cfg.staminaValueIncrement)
            && (b'.canSprint <==> b.canSprint || b.currentStamina > 0.0)
            && b'.regenerating)
      && (b.currentStamina >= cfg.maxStamina ==>
            b'.currentStamina == b.currentStamina && b'.canSprint == b.canSprint
            && !b'.regenerating && b'.regenRoutines == 0)
  {
  }

  /**
   * From an exhausted sprint, the first regeneration step still forbids sprinting
   * and only the second allows it again, provided one step does not already fill
   * the bar.
   */
  lemma ExhaustedSprintReturnsOnSecondStep(cfg: Settings, b: Body)
    requires Valid(cfg, b) && b.regenerating
    requires b.currentStamina == 0.0 && !b.canSprint
    requires 0.0 < cfg.staminaValueIncrement < cfg.maxStamina
    ensures !RegenStep(cfg, b).canSprint
    ensures RegenStep(cfg, b).currentStamina == cfg.staminaValueIncrement
    ensures RegenStep(cfg, RegenStep(cfg, b)).canSprint
  {
  }

  /**
   * When one step fills the bar from empty (`staminaValueIncrement >= maxStamina`),
   * regeneration ends with sprinting still forbidden.
   */
  lemma LargeIncrementEndsRegenWithoutSprint(cfg: Settings, b: Body)
    requires Valid(cfg, b) && b.regenerating
    requires b.currentStamina == 0.0 && !b.canSprint
    requires 0.0 < cfg.maxStamina <= cfg.staminaValueIncrement
    ensures var b2 := RegenStep(cfg, RegenStep(cfg, b));
      b2.currentStamina == cfg.maxStamina && !b2.canSprint && !b2.regenerating
  {
  }

  /**
   * With full stamina, no regeneration running and sprinting forbidden, no run of
   * whole frames ever allows sprinting again: nothing drains stamina, so nothing
   * starts the coroutine that alone sets `canSprint`, and the crouch coroutine
   * resuming in between touches none of this.
   */
  lemma {:induction false} SprintLockedForGood(cfg: Settings, b: Body, fs: seq<Frame>)
    requires Valid(cfg, b) && forall i :: 0 <= i < |fs| ==> 0.0 <= fs[i].dt
    requires b.currentStamina == cfg.maxStamina && !b.canSprint && !b.regenerating
    ensures var r := RunFrames(cfg, b, fs);
      !r.canSprint && r.currentStamina == cfg.maxStamina && !r.regenerating
    decreases |fs|
  {
    if fs != [] {
      var u := UpdateSpec(cfg, b, fs[0]);
      assert !u.canSprint && u.currentStamina == cfg.maxStamina && !u.regenerating;
      assert !RegenSurvivesUpdate(cfg, b, fs[0]);
      var b1 := FrameSpec(cfg, b, fs[0]);
      assert !b1.canSprint && b1.currentStamina == cfg.maxStamina && !b1.regenerating;
      SprintLockedForGood(cfg, b1, fs[1..]);
    }
  }

  /**
   * With a positive increment, regeneration from any stamina fills the bar and
   * ends: `k` steps whose increments cover the shortfall, plus one to leave the loop.
   */
  lemma {:induction false} RegenerationFillsAndEnds(cfg: Settings, b: Body, k: nat)
    requires Valid(cfg, b) && b.regenerating
    requires b.currentStamina + (k as real) * cfg.staminaValueIncrement >= cfg.maxStamina
    ensures RegenSteps(cfg, b, k + 1).currentStamina == cfg.maxStamina
    ensures !RegenSteps(cfg, b, k + 1).regenerating
    decreases k
  {
    var b1 := RegenStep(cfg, b);
    if b.currentStamina >= cfg.maxStamina {
      assert !b1.regenerating && b1.currentStamina == cfg.maxStamina;
      assert RegenSteps(cfg, b1, k) == b1;
    } else {
      assert k > 0;
      assert ((k - 1) as real) * cfg.staminaValueIncrement + cfg.staminaValueIncrement
          == (k as real) * cfg.staminaValueIncrement;
      assert ((k - 1) as real) * cfg.staminaValueIncrement >= 0.0;
      RegenerationFillsAndEnds(cfg, b1, k - 1);
    }
  }

  /** After any look input the pitch lies within `[-upperLookLimit, lowerLookLimit]`, and moves freely inside it. */
  lemma PitchWithinLookLimits(cfg: Settings, b: Body, mouseY: real)
    requires WellConfigured(cfg)
    ensures var x := LookInputSpec(cfg, b, mouseY).rotationX;
      && -cfg.upperLookLimit <= x <= cfg.lowerLookLimit
      && ((-cfg.upperLookLimit <= b.rotationX - mouseY * cfg.lookSpeedY <= cfg.lowerLookLimit)
            ==> x == b.rotationX - mouseY * cfg.lookSpeedY)
  {
  }

  /**
   * A crouch or stand starts only on a key press while grounded and not already
   * animating, and standing up under a ceiling is refused. A started animation
   * leaves the posture as it was and raises the animation flag, unless
   * `timeToCrouch` is not positive, in which case it completes in the same frame.
   */
  lemma CrouchStartsOnlyWhenAllowed(cfg: Settings, b: Body, f: Frame)
    ensures var b' := CrouchSpec(cfg, b, f);
      && (!ShouldCrouch(b, f) ==> b' == b)
      && (ShouldCrouch(b, f) && b.isCrouching && f.ceilingAbove ==> b' == b)
      && (ShouldCrouch(b, f) && !(b.isCrouching && f.ceilingAbove) ==>
            (b'.duringCrouchAnimation <==> 0.0 < cfg.timeToCrouch)
            && (b'.isCrouching == b.isCrouching <==> b'.duringCrouchAnimation))
  {
  }

  /**
   * Over any run of the crouch coroutine the posture flips exactly when the
   * animation has ended: never while it runs, once when it stops.
   */
  lemma {:induction false} CrouchFlipsOnceAtEnd(cfg: Settings, b: Body, dts: seq<real>)
    requires b.duringCrouchAnimation
    ensures var r := CrouchRun(cfg, b, dts);
      (r.isCrouching == b.isCrouching) == r.duringCrouchAnimation
    decreases |dts|
  {
    if dts != [] {
      var b1 := CrouchStep(cfg, b, dts[0]);
      if b1.duringCrouchAnimation {
        CrouchFlipsOnceAtEnd(cfg, b1, dts[1..]);
      } else {
        assert CrouchRun(cfg, b1, dts[1..]) == b1;
      }
    }
  }

  /**
   * With non-negative frame times, an animation whose frames add up to the
   * remaining `timeToCrouch` is over after one further resumption, whatever that
   * frame's time.
   */
  lemma {:induction false} CrouchCompletes(cfg: Settings, b: Body, dts: seq<real>, last: real)
    requires b.duringCrouchAnimation
    requires forall i :: 0 <= i < |dts| ==> 0.0 <= dts[i]
    requires b.crouchElapsed + Sum(dts) >= cfg.timeToCrouch
    ensures !CrouchRun(cfg, b, dts + [last]).duringCrouchAnimation
    decreases |dts|
  {
    if dts == [] {
      assert [] + [last] == [last];
      assert b.crouchElapsed >= cfg.timeToCrouch;
    } else {
      var b1 := CrouchStep(cfg, b, dts[0]);
      assert (dts + [last])[0] == dts[0];
      assert (dts + [last])[1..] == dts[1..] + [last];
      if b1.duringCrouchAnimation {
        CrouchCompletes(cfg, b1, dts[1..], last);
      } else {
        assert CrouchRun(cfg, b1, dts[1..] + [last]) == b1;
      }
    }
  }

  /** Two bodies in the same posture and at the same point of the crouch animation. */
  predicate SamePosture(x: Body, y: Body)
  {
    x.isCrouching == y.isCrouching && x.duringCrouchAnimation == y.duringCrouchAnimation
    && x.crouchElapsed == y.crouchElapsed
  }

  /**
   * While the crouch key is not pressed, whole frames move the posture exactly as
   * the crouch coroutine alone does, resumed once per frame with that frame's time.
   */
  lemma {:induction false} FramesDriveCrouchCoroutine(cfg: Settings, b: Body, c: Body, fs: seq<Frame>)
    requires Valid(cfg, b) && SamePosture(b, c)
    requires forall i :: 0 <= i < |fs| ==> 0.0 <= fs[i].dt && !fs[i].crouchPressed
    ensures SamePosture(RunFrames(cfg, b, fs), CrouchRun(cfg, c, FrameTimes(fs)))
    decreases |fs|
  {
    if fs != [] {
      var b1 := FrameSpec(cfg, b, fs[0]);
      assert FrameTimes(fs)[0] == fs[0].dt;
      assert FrameTimes(fs)[1..] == FrameTimes(fs[1..]);
      if c.duringCrouchAnimation {
        FramesDriveCrouchCoroutine(cfg, b1, CrouchStep(cfg, c, fs[0].dt), fs[1..]);
      } else {
        FramesDriveCrouchCoroutine(cfg, b1, c, fs[1..]);
        assert CrouchRun(cfg, c, FrameTimes(fs[1..])) == c;
      }
    }
  }

  /**
   * Hence, over whole frames without a crouch key press, a running animation whose
   * frame times cover the remaining `timeToCrouch` is over one frame later, with
   * the posture flipped.
   */
  lemma CrouchCompletesOverFrames(cfg: Settings, b: Body, fs: seq<Frame>, last: Frame)
    requires Valid(cfg, b) && b.duringCrouchAnimation
    requires forall i :: 0 <= i < |fs| ==> 0.0 <= fs[i].dt && !fs[i].crouchPressed
    requires 0.0 <= last.dt && !last.crouchPressed
    requires b.crouchElapsed + Sum(FrameTimes(fs)) >= cfg.timeToCrouch
    ensures !RunFrames(cfg, b, fs + [last]).duringCrouchAnimation
    ensures RunFrames(cfg, b, fs + [last]).isCrouching == !b.isCrouching
  {
    var all := fs + [last];
    assert FrameTimes(all) == FrameTimes(fs) + [last.dt];
    FramesDriveCrouchCoroutine(cfg, b, b, all);
    CrouchCompletes(cfg, b, FrameTimes(fs), last.dt);
    CrouchFlipsOnceAtEnd(cfg, b, FrameTimes(all));
  }

  /**
   * The movement speed is the crouch speed whenever crouching, even with the
   * sprint key held; standing, it is the sprint speed exactly when `canSprint`
   * and the key are both on, and the walk speed otherwise. The
   * movement input then vanishes exactly when that speed is zero or no axis is
   * pressed, which is what decides whether a sprint drains stamina.
   */
  lemma MovementInputFollowsSpeedRule(cfg: Settings, b: Body, f: Frame)
    ensures b.isCrouching ==> MoveSpeed(cfg, b, f) == cfg.crouchSpeed
    ensures !b.isCrouching && b.canSprint && f.sprintHeld ==> MoveSpeed(cfg, b, f) == cfg.sprintSpeed
    ensures !b.isCrouching && !(b.canSprint && f.sprintHeld) ==> MoveSpeed(cfg, b, f) == cfg.walkSpeed
    ensures (MoveSpeed(cfg, b, f) == cfg.sprintSpeed && cfg.sprintSpeed != cfg.walkSpeed
             && cfg.sprintSpeed != cfg.crouchSpeed) ==> b.canSprint && f.sprintHeld
    ensures HasInput(MovementInputSpec(cfg, b, f)) <==>
              MoveSpeed(cfg, b, f) != 0.0 && (f.vertical != 0.0 || f.horizontal != 0.0)
  {
  }

  /** `Update` keeps the controller's invariant. */
  lemma UpdatePreservesValid(cfg: Settings, b: Body, f: Frame)
    requires Valid(cfg, b) && 0.0 <= f.dt
    ensures Valid(cfg, UpdateSpec(cfg, b, f))
    ensures UpdateSpec(cfg, b, f).regenRoutines <= 1
  {
  }
}
