/** PlayerMovement, restricted to the vertical velocity and the camera pitch: the grounded
    clamp, the jump gated on grounded, gravity integration and the pitch clamp to [-90, 90].
    The grounded flag, the jump key, the mouse axis and deltaTime are parameters. */
module Movement {
  import opened Engine

  /** The residual downward velocity kept while grounded. */
  const GroundedVelocity := -2.0

  /** The pitch limits, in degrees. */
  const MinPitch := -90.0
  const MaxPitch := 90.0

  /** The inspector settings the vertical and look logic reads. */
  datatype MovementConfig = MovementConfig(jumpForce: real, gravity: real, mouseSensitivity: real)

  /** PlayerMovement's inspector defaults (jumpForce 7, gravity 9.81, mouseSensitivity 2). */
  const DefaultConfig := MovementConfig(7.0, 9.81, 2.0)

  /** Mathf.Clamp: below min gives min, otherwise above max gives max. */
  function Clamp(value: real, min: real, max: real): (r: real)
    ensures min <= max ==> min <= r <= max
    ensures min <= value <= max ==> r == value
    ensures value < min ==> r == min
    ensures min <= max && max < value ==> r == max
  {
    if value < min then min else if value > max then max else value
  }

  /** velocity.y after one Update: the grounded clamp to -2 when falling, the jump when
      grounded, then gravity. */
  function VerticalVelocity(cfg: MovementConfig, vy: real, grounded: bool, jumpDown: bool, deltaTime: real): (r: real)
    ensures grounded && jumpDown ==> r == cfg.jumpForce - cfg.gravity * deltaTime
    ensures !grounded ==> r == vy - cfg.gravity * deltaTime
    ensures grounded && !jumpDown ==> r + cfg.gravity * deltaTime >= GroundedVelocity
    ensures grounded && !jumpDown && vy < 0.0 ==> r == GroundedVelocity - cfg.gravity * deltaTime
    ensures grounded && !jumpDown && vy >= 0.0 ==> r == vy - cfg.gravity * deltaTime
  {
    var clamped := if grounded && vy < 0.0 then GroundedVelocity else vy;
    var jumped := if jumpDown && grounded then cfg.jumpForce else clamped;
    jumped - cfg.gravity * deltaTime
  }

  /** A jump pressed while airborne is dropped: it changes nothing. */
  lemma AirborneJumpIgnored(cfg: MovementConfig, vy: real, deltaTime: real)
    ensures VerticalVelocity(cfg, vy, false, true, deltaTime) == VerticalVelocity(cfg, vy, false, false, deltaTime)
  {
  }

  /** xRotation after one Update: the mouse delta is subtracted, then clamped. */
  function Pitch(xRotation: real, mouseY: real): (r: real)
    ensures MinPitch <= r <= MaxPitch
    ensures MinPitch <= xRotation - mouseY <= MaxPitch ==> r == xRotation - mouseY
    ensures xRotation - mouseY < MinPitch ==> r == MinPitch
    ensures xRotation - mouseY > MaxPitch ==> r == MaxPitch
  {
    Clamp(xRotation - mouseY, MinPitch, MaxPitch)
  }

  /** The fields Update writes. */
  datatype MovementState = MovementState(velocity: Vec3, isGrounded: bool, xRotation: real)

  /** The state the field initialisers give: velocity zero, not grounded, pitch zero. */
  const Initial := MovementState(Zero, false, 0.0)

  /** Horizontal velocity stays zero and the pitch stays in [-90, 90]. */
  predicate Inv(s: MovementState) {
    s.velocity.x == 0.0 && s.velocity.z == 0.0 && MinPitch <= s.xRotation <= MaxPitch
  }

  /** The inputs of one frame: controller.isGrounded, the Jump button, the Mouse Y delta (the
      axis already scaled by mouseSensitivity) and deltaTime. */
  datatype FrameInput = FrameInput(grounded: bool, jumpDown: bool, mouseY: real, deltaTime: real)

  function UpdateStep(cfg: MovementConfig, s: MovementState, input: FrameInput): (r: MovementState)
    ensures r.velocity.x == s.velocity.x && r.velocity.z == s.velocity.z
    ensures r.isGrounded == input.grounded
    ensures r.velocity.y == VerticalVelocity(cfg, s.velocity.y, input.grounded, input.jumpDown, input.deltaTime)
    ensures r.xRotation == Pitch(s.xRotation, input.mouseY)
    ensures MinPitch <= r.xRotation <= MaxPitch
  {
    MovementState(
      s.velocity.(y := VerticalVelocity(cfg, s.velocity.y, input.grounded, input.jumpDown, input.deltaTime)),
      input.grounded,
      Pitch(s.xRotation, input.mouseY))
  }

  function Run(cfg: MovementConfig, s: MovementState, inputs: seq<FrameInput>): MovementState
    decreases |inputs|
  {
    if |inputs| == 0 then s else UpdateStep(cfg, Run(cfg, s, inputs[..|inputs| - 1]), inputs[|inputs| - 1])
  }

  /** Over any sequence of frames, horizontal velocity stays zero and the pitch stays within
      [-90, 90], whatever the mouse input. */
  lemma {:induction false} RunKeepsInv(cfg: MovementConfig, s: MovementState, inputs: seq<FrameInput>)
    requires Inv(s)
    ensures Inv(Run(cfg, s, inputs))
    decreases |inputs|
  {
    if |inputs| > 0 {
      RunKeepsInv(cfg, s, inputs[..|inputs| - 1]);
    }
  }

  /** The movement controller. moveSpeed, horizontal movement and yaw feed only the engine's
      Move and Rotate and are not modelled. */
  class PlayerMovement {
    const config: MovementConfig
    var velocity: Vec3
    var isGrounded: bool
    var xRotation: real

    function State(): MovementState
      reads this
    {
      MovementState(velocity, isGrounded, xRotation)
    }

    predicate Valid()
      reads this
    {
      Inv(State())
    }

    constructor (cfg: MovementConfig)
      ensures Valid() && State() == Initial && config == cfg
    {
      config := cfg;
      velocity, isGrounded, xRotation := Zero, false, 0.0;
    }

    /** A component with the inspector defaults. */
    constructor Default()
      ensures Valid() && State() == Initial && config == DefaultConfig
    {
      config := DefaultConfig;
      velocity, isGrounded, xRotation := Zero, false, 0.0;
    }

    method Update(grounded: bool, jumpDown: bool, mouseYAxis: real, deltaTime: real)
      modifies this
      ensures MinPitch <= xRotation <= MaxPitch
      ensures old(Valid()) ==> Valid()
      ensures State() == UpdateStep(config, old(State()), FrameInput(grounded, jumpDown, mouseYAxis * config.mouseSensitivity, deltaTime))
    {
      isGrounded := grounded;
      if isGrounded && velocity.y < 0.0 {
        velocity := velocity.(y := GroundedVelocity);
      }
      if jumpDown && isGrounded {
        velocity := velocity.(y := config.jumpForce);
      }
      velocity := velocity.(y := velocity.y - config.gravity * deltaTime);
      var mouseY := mouseYAxis * config.mouseSensitivity;
      xRotation := xRotation - mouseY;
      xRotation := Clamp(xRotation, MinPitch, MaxPitch);
    }
  }
}
