/**
 * The first-person controller's own state: stamina with its sprint flag and its
 * regeneration coroutine, the camera pitch, the crouch toggle with its animation
 * coroutine, and the choice of movement speed.
 *
 * Keys, mouse axes, `Time.deltaTime`, the ground test and the ceiling ray cast are
 * per-frame inputs (`Frame`). A coroutine is a flag plus whatever its loop keeps
 * between frames; each resumption by the engine's scheduler is one call of
 * `RegenStep` or `CrouchStep`, and a `WaitForSeconds` only decides when that call
 * comes. Head bob, gravity, `CharacterController.Move` and the height lerp move
 * the camera and the capsule but never these fields, and are not modelled.
 */
module FirstPersonMovement {
  import opened UnityMath

  /** The controller's serialized parameters. */
  datatype Settings = Settings(
    walkSpeed: real,
    sprintSpeed: real,
    crouchSpeed: real,
    lookSpeedY: real,
    upperLookLimit: real,
    lowerLookLimit: real,
    maxStamina: real,
    staminaUseMultiplier: real,
    staminaValueIncrement: real,
    timeToCrouch: real,
    canCrouch: bool,
    useStamina: bool)

  /**
   * The ranges the parameters are kept in: the look limits carry `Range(1, 180)`
   * and the stamina parameters are non-negative amounts and rates.
   */
  predicate WellConfigured(cfg: Settings)
  {
    1.0 <= cfg.upperLookLimit <= 180.0 && 1.0 <= cfg.lowerLookLimit <= 180.0
    && 0.0 <= cfg.maxStamina && 0.0 <= cfg.staminaUseMultiplier && 0.0 <= cfg.staminaValueIncrement
  }

  /** The input of one frame. */
  datatype Frame = Frame(
    dt: real,              // `Time.deltaTime`
    vertical: real,        // `Input.GetAxis("Vertical")`
    horizontal: real,      // `Input.GetAxis("Horizontal")`
    mouseY: real,          // `Input.GetAxis("Mouse Y")`
    sprintHeld: bool,      // `Input.GetKey(sprintKey)`
    crouchPressed: bool,   // `Input.GetKeyDown(crouchKey)`
    grounded: bool,        // `characterController.isGrounded`
    ceilingAbove: bool,    // `Physics.Raycast(camera position, Vector3.up, 1f)`
    regenWaitOver: bool)   // the regeneration coroutine's current `WaitForSeconds` runs out this frame

  /**
   * The fields the controller updates. `regenerating` is `regeneratingStamina !=
   * null`; `regenRoutines` counts the regeneration coroutines the scheduler is
   * running. `duringCrouchAnimation` doubles as "the crouch coroutine is running":
   * it is raised on the coroutine's first step and lowered on its last, and
   * `crouchElapsed` is that coroutine's `timeElapsed`.
   */
  datatype Body = Body(
    currentInputX: real,
    currentInputY: real,
    rotationX: real,
    currentStamina: real,
    canSprint: bool,
    regenerating: bool,
    regenRoutines: nat,
    isCrouching: bool,
    duringCrouchAnimation: bool,
    crouchElapsed: real)

  /**
   * The controller's invariant: stamina within `[0, maxStamina]`, pitch within the
   * look limits, and exactly one regeneration coroutine alive when the handle is
   * set, none otherwise.
   */
  predicate Valid(cfg: Settings, b: Body)
  {
    WellConfigured(cfg)
    && 0.0 <= b.currentStamina <= cfg.maxStamina
    && -cfg.upperLookLimit <= b.rotationX <= cfg.lowerLookLimit
    && b.regenRoutines == (if b.regenerating then 1 else 0)
  }

  /** `IsSprinting`: sprint is allowed and the sprint key is held. */
  predicate IsSprinting(b: Body, f: Frame)
  {
    b.canSprint && f.sprintHeld
  }

  /** The speed `HandleMovementInput` scales the axes by: crouching first, then sprinting, else walking. */
  function MoveSpeed(cfg: Settings, b: Body, f: Frame): (speed: real)
    ensures speed == cfg.crouchSpeed || speed == cfg.sprintSpeed || speed == cfg.walkSpeed
  {
    if b.isCrouching then cfg.crouchSpeed else if IsSprinting(b, f) then cfg.sprintSpeed else cfg.walkSpeed
  }

  /** `currentInput != Vector3.zero`. */
  predicate HasInput(b: Body)
  {
    b.currentInputX != 0.0 || b.currentInputY != 0.0
  }

  /** `HandleMovementInput`, as far as `currentInput` goes. */
  function MovementInputSpec(cfg: Settings, b: Body, f: Frame): (r: Body)
    ensures r.(currentInputX := b.currentInputX, currentInputY := b.currentInputY) == b
  {
    var speed := MoveSpeed(cfg, b, f);
    b.(currentInputX := speed * f.vertical, currentInputY := speed * f.horizontal)
  }

  /** `HandleLookInput`: the pitch moves against the mouse and is clamped to the look limits. */
  function LookInputSpec(cfg: Settings, b: Body, mouseY: real): (r: Body)
    ensures WellConfigured(cfg) ==> -cfg.upperLookLimit <= r.rotationX <= cfg.lowerLookLimit
    ensures r.(rotationX := b.rotationX) == b
  {
    b.(rotationX := Clamp(b.rotationX - mouseY * cfg.lookSpeedY, -cfg.upperLookLimit, cfg.lowerLookLimit))
  }

  /** `ShouldCrouch`: the crouch key went down this frame, no animation runs and the player is grounded. */
  predicate ShouldCrouch(b: Body, f: Frame)
  {
    f.crouchPressed && !b.duringCrouchAnimation && f.grounded
  }

  /**
   * One pass of `CrouchStand`'s loop test: while less than `timeToCrouch` has
   * elapsed, another frame of the height lerp; afterwards the posture flips and
   * the animation ends.
   */
  function CrouchStep(cfg: Settings, b: Body, dt: real): (r: Body)
    requires b.duringCrouchAnimation
    ensures r.(isCrouching := b.isCrouching, duringCrouchAnimation := true, crouchElapsed := b.crouchElapsed) == b
  {
    if b.crouchElapsed < cfg.timeToCrouch then
      b.(crouchElapsed := b.crouchElapsed + dt)
    else
      b.(isCrouching := !b.isCrouching, duringCrouchAnimation := false)
  }

  /**
   * `HandleCrouch`: when `ShouldCrouch`, start `CrouchStand`, which gives up at once
   * if the player is crouching under a ceiling, and otherwise raises the animation
   * flag and runs its first step in this same frame.
   */
  function CrouchSpec(cfg: Settings, b: Body, f: Frame): (r: Body)
    ensures r.(isCrouching := b.isCrouching, duringCrouchAnimation := b.duringCrouchAnimation,
               crouchElapsed := b.crouchElapsed) == b
  {
    if !ShouldCrouch(b, f) then b
    else if b.isCrouching && f.ceilingAbove then b
    else CrouchStep(cfg, b.(duringCrouchAnimation := true, crouchElapsed := 0.0), f.dt)
  }

  /**
   * `HandleStamina`. A sprinting frame with movement input stops any pending
   * regeneration, drains stamina at `staminaUseMultiplier` per second down to no
   * less than zero, and forbids sprinting once it is empty. Then, re-reading
   * `IsSprinting`, a regeneration coroutine is started if the player is not
   * sprinting, stamina is short of its maximum and none is running.
   */
  function StaminaSpec(cfg: Settings, b: Body, f: Frame): (r: Body)
    requires Valid(cfg, b) && 0.0 <= f.dt
    ensures Valid(cfg, r)
    ensures r.currentStamina <= b.currentStamina
  {
    var b1 :=
      if IsSprinting(b, f) && HasInput(b) then
        var stopped := if b.regenerating then b.(regenerating := false, regenRoutines := b.regenRoutines - 1) else b;
        var drained := b.currentStamina - cfg.staminaUseMultiplier * f.dt;
        var stamina := if drained < 0.0 then 0.0 else drained;
        stopped.(currentStamina := stamina, canSprint := if stamina <= 0.0 then false else b.canSprint)
      else
        b;
    if !IsSprinting(b1, f) && b1.currentStamina < cfg.maxStamina && !b1.regenerating then
      b1.(regenerating := true, regenRoutines := b1.regenRoutines + 1)
    else
      b1
  }

  /**
   * One resumption of `RegenerateStamina`, after its initial wait or after one of
   * its step waits. While stamina is short of the maximum: sprinting is allowed
   * again if there was some stamina before this step, and `staminaValueIncrement`
   * is added, capped at the maximum. Once it is full: the handle is cleared and the
   * coroutine ends.
   */
  function RegenStep(cfg: Settings, b: Body): (r: Body)
    requires Valid(cfg, b) && b.regenerating
    ensures Valid(cfg, r)
    ensures b.currentStamina <= r.currentStamina
  {
    if b.currentStamina < cfg.maxStamina then
      var raised := b.currentStamina + cfg.staminaValueIncrement;
      b.(canSprint := if b.currentStamina > 0.0 then true else b.canSprint,
         currentStamina := if raised > cfg.maxStamina then cfg.maxStamina else raised)
    else
      b.(regenerating := false, regenRoutines := b.regenRoutines - 1)
  }

  /** The part of `Update` before `HandleStamina`: movement input, look and crouch; none of it touches stamina. */
  function BeforeStamina(cfg: Settings, b: Body, f: Frame): (r: Body)
    ensures Valid(cfg, b) ==> Valid(cfg, r)
    ensures r.currentStamina == b.currentStamina && r.canSprint == b.canSprint
    ensures r.regenerating == b.regenerating && r.regenRoutines == b.regenRoutines
  {
    var b1 := MovementInputSpec(cfg, b, f);
    var b2 := LookInputSpec(cfg, b1, f.mouseY);
    if cfg.canCrouch then CrouchSpec(cfg, b2, f) else b2
  }

  /** One call of `Update`: movement input, look, crouch and stamina, in that order. */
  function UpdateSpec(cfg: Settings, b: Body, f: Frame): (r: Body)
    requires Valid(cfg, b) && 0.0 <= f.dt
    ensures Valid(cfg, r)
  {
    var b3 := BeforeStamina(cfg, b, f);
    if cfg.useStamina then StaminaSpec(cfg, b3, f) else b3
  }

  /**
   * Whether the regeneration coroutine running before this frame is still the
   * one running after `Update`: `HandleStamina` stops it on a sprinting frame with
   * movement input.
   */
  predicate RegenSurvivesUpdate(cfg: Settings, b: Body, f: Frame)
  {
    var pre := BeforeStamina(cfg, b, f);
    b.regenerating && !(cfg.useStamina && IsSprinting(pre, f) && HasInput(pre))
  }

  /**
   * One whole frame: `Update`, then the coroutines that were already running
   * resume. `CrouchStand` yields one frame at a time, so it resumes every frame;
   * `RegenerateStamina` resumes only in a frame where its current wait runs out.
   * A coroutine started during this `Update` has already run up to its first
   * `yield` and is not resumed again in the same frame.
   */
  function FrameSpec(cfg: Settings, b: Body, f: Frame): (r: Body)
    requires Valid(cfg, b) && 0.0 <= f.dt
    ensures Valid(cfg, r)
  {
    var u := UpdateSpec(cfg, b, f);
    var u1 := if RegenSurvivesUpdate(cfg, b, f) && f.regenWaitOver then RegenStep(cfg, u) else u;
    if b.duringCrouchAnimation then CrouchStep(cfg, u1, f.dt) else u1
  }

  /** A run of whole frames. */
  function RunFrames(cfg: Settings, b: Body, fs: seq<Frame>): (r: Body)
    requires Valid(cfg, b)
    requires forall i :: 0 <= i < |fs| ==> 0.0 <= fs[i].dt
    ensures Valid(cfg, r)
    decreases |fs|
  {
    if fs == [] then b else RunFrames(cfg, FrameSpec(cfg, b, fs[0]), fs[1..])
  }

  /** Up to `n` resumptions of the regeneration coroutine, stopping when it ends. */
  function RegenSteps(cfg: Settings, b: Body, n: nat): (r: Body)
    requires Valid(cfg, b)
    ensures Valid(cfg, r)
    decreases n
  {
    if n == 0 || !b.regenerating then b else RegenSteps(cfg, RegenStep(cfg, b), n - 1)
  }

  /** Resumptions of the crouch coroutine with the given frame times, stopping when it ends. */
  function CrouchRun(cfg: Settings, b: Body, dts: seq<real>): (r: Body)
    decreases |dts|
  {
    if dts == [] || !b.duringCrouchAnimation then b else CrouchRun(cfg, CrouchStep(cfg, b, dts[0]), dts[1..])
  }

  /** The frame times of a run of frames. */
  function FrameTimes(fs: seq<Frame>): (dts: seq<real>)
    ensures |dts| == |fs|
    ensures forall i :: 0 <= i < |fs| ==> dts[i] == fs[i].dt
  {
    seq(|fs|, i requires 0 <= i < |fs| => fs[i].dt)
  }

  /** The total of a sequence of frame times. */
  function Sum(dts: seq<real>): (total: real)
    decreases |dts|
  {
    if dts == [] then 0.0 else dts[0] + Sum(dts[1..])
  }

  /** The controller object; its methods change its fields in place. */
  class FPSController {
    const settings: Settings
    var currentInputX: real
    var currentInputY: real
    var rotationX: real
    var currentStamina: real
    var canSprint: bool
    var regenerating: bool
    var regenRoutines: nat
    var isCrouching: bool
    var duringCrouchAnimation: bool
    var crouchElapsed: real

    function Data(): Body
      reads this
    {
      Body(currentInputX, currentInputY, rotationX, currentStamina, canSprint,
           regenerating, regenRoutines, isCrouching, duringCrouchAnimation, crouchElapsed)
    }

    /**
     * The serialized fields, `canSprint` among them (true unless the designer
     * turned it off), followed by `Awake`, which fills the stamina.
     */
    constructor (settings: Settings, canSprint: bool)
      requires WellConfigured(settings)
      ensures this.settings == settings
      ensures Data() == Body(0.0, 0.0, 0.0, settings.maxStamina, canSprint, false, 0, false, false, 0.0)
      ensures Valid(settings, Data())
    {
      this.settings := settings;
      currentInputX, currentInputY := 0.0, 0.0;
      rotationX := 0.0;
      currentStamina := settings.maxStamina;
      this.canSprint := canSprint;
      regenerating, regenRoutines := false, 0;
      isCrouching, duringCrouchAnimation, crouchElapsed := false, false, 0.0;
    }

    method HandleMovementInput(f: Frame)
      modifies this`currentInputX, this`currentInputY
      ensures Data() == MovementInputSpec(settings, old(Data()), f)
    {
      var speed := if isCrouching then settings.crouchSpeed
                   else if canSprint && f.sprintHeld then settings.sprintSpeed
                   else settings.walkSpeed;
      currentInputX := speed * f.vertical;
      currentInputY := speed * f.horizontal;
    }

    method HandleLookInput(mouseY: real)
      modifies this`rotationX
      ensures Data() == LookInputSpec(settings, old(Data()), mouseY)
    {
      rotationX := rotationX - mouseY * settings.lookSpeedY;
      rotationX := Clamp(rotationX, -settings.upperLookLimit, settings.lowerLookLimit);
    }

    /** A resumption of the running `CrouchStand` coroutine. */
    method ResumeCrouch(dt: real)
      requires duringCrouchAnimation
      modifies this`crouchElapsed, this`isCrouching, this`duringCrouchAnimation
      ensures Data() == CrouchStep(settings, old(Data()), dt)
    {
      if crouchElapsed < settings.timeToCrouch {
        crouchElapsed := crouchElapsed + dt;
      } else {
        isCrouching := !isCrouching;
        duringCrouchAnimation := false;
      }
    }

    method HandleCrouch(f: Frame)
      modifies this`crouchElapsed, this`isCrouching, this`duringCrouchAnimation
      ensures Data() == CrouchSpec(settings, old(Data()), f)
    {
      if f.crouchPressed && !duringCrouchAnimation && f.grounded {
        if !(isCrouching && f.ceilingAbove) {
          duringCrouchAnimation := true;
          crouchElapsed := 0.0;
          ResumeCrouch(f.dt);
        }
      }
    }

    method HandleStamina(f: Frame)
      requires Valid(settings, Data()) && 0.0 <= f.dt
      modifies this`currentStamina, this`canSprint, this`regenerating, this`regenRoutines
      ensures Data() == StaminaSpec(settings, old(Data()), f)
      ensures Valid(settings, Data())
    {
      if canSprint && f.sprintHeld && (currentInputX != 0.0 || currentInputY != 0.0) {
        if regenerating {
          regenRoutines := regenRoutines - 1;
          regenerating := false;
        }
        currentStamina := currentStamina - settings.staminaUseMultiplier * f.dt;
        if currentStamina < 0.0 {
          currentStamina := 0.0;
        }
        if currentStamina <= 0.0 {
          canSprint := false;
        }
      }
      if !(canSprint && f.sprintHeld) && currentStamina < settings.maxStamina && !regenerating {
        regenerating := true;
        regenRoutines := regenRoutines + 1;
      }
    }

    /** A resumption of the running `RegenerateStamina` coroutine. */
    method ResumeRegeneration()
      requires Valid(settings, Data()) && regenerating
      modifies this`currentStamina, this`canSprint, this`regenerating, this`regenRoutines
      ensures Data() == RegenStep(settings, old(Data()))
      ensures Valid(settings, Data())
    {
      if currentStamina < settings.maxStamina {
        if currentStamina > 0.0 {
          canSprint := true;
        }
        currentStamina := currentStamina + settings.staminaValueIncrement;
        if currentStamina > settings.maxStamina {
          currentStamina := settings.maxStamina;
        }
      } else {
        regenerating := false;
        regenRoutines := regenRoutines - 1;
      }
    }

    /** `Update`, once per frame, before the coroutines resume. */
    method Update(f: Frame)
      requires Valid(settings, Data()) && 0.0 <= f.dt
      modifies this
      ensures Data() == UpdateSpec(settings, old(Data()), f)
      ensures Valid(settings, Data())
    {
      HandleMovementInput(f);
      HandleLookInput(f.mouseY);
      if settings.canCrouch {
        HandleCrouch(f);
      }
      if settings.useStamina {
        HandleStamina(f);
      }
    }

    /** One whole frame as the engine runs it: `Update`, then the coroutines that were already running. */
    method RunFrame(f: Frame)
      requires Valid(settings, Data()) && 0.0 <= f.dt
      modifies this
      ensures Data() == FrameSpec(settings, old(Data()), f)
      ensures Valid(settings, Data())
    {
      var crouchRunning := duringCrouchAnimation;
      var regenSurvives := RegenSurvivesUpdate(settings, Data(), f);
      Update(f);
      if regenSurvives && f.regenWaitOver {
        ResumeRegeneration();
      }
      if crouchRunning {
        ResumeCrouch(f.dt);
      }
    }
  }
}
