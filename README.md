# WhereVimto behaviours in Dafny

This project models the three per-tick behaviour scripts of the WhereVimto first-person
prototype and proves properties about them. It keeps only the discrete state and the update
rules the scripts write themselves. The engine's geometry, physics and input enter as parameters.

- `engine.dfy`, module `Engine`: what the host engine provides. This is optional references,
  object ids, `Vec3` over the reals, the scene's activation map (`Scene`, with `SetActive`) and a
  registry of rigidbodies (`PhysicsWorld`). Each rigidbody is a record
  `Rigidbody(useGravity, freezeRotation, linearVelocity)`.
- `facing_trigger.dfy`, module `FacingTrigger`: `EnvironmentFacingTrigger`. Enter and exit of a
  "Player"-tagged collider and a per-frame check drive the fields `playerInside`,
  `playerTransform` and `hasTriggered`. The trigger fires once per occupancy when the supplied
  facing angle is within `facingThresholdAngle`. Firing runs the two activation loops over the
  arrays of optional object ids.
- `carry.dfy`, module `Carry`: `FirstPersonCarry`. The Idle/Holding machine over
  `heldObject`/`heldRigidbody`. Pickup is on a ray hit within range carrying the carriable tag.
  Drop turns gravity on and unfreezes rotation. Each physics tick servos the held body's velocity.
- `movement.dfy`, module `Movement`: `PlayerMovement.Update`, limited to `velocity.y`,
  `isGrounded` and the `xRotation` clamp.

Each source class is a Dafny class with the fields the modelled logic reads and writes; the
carry and movement settings are bundled into a configuration record. Each method is verified to leave
the state given by a pure step function applied to the old state and the method's inputs
(`EnterStep`, `UpdateStep`, `PickupStep`, `DropStep`, `FixedStep`, …). The properties are proved
about those functions. Some are single-step contracts. Others are lemmas over sequences of
events, ticks or frames.

Inputs supplied by the caller:
- the facing angle (the engine's `Vector3.Angle` between the required direction and the
  occupant's forward vector);
- the nearest raycast hit, given as tag, distance, object id and optional rigidbody id;
- the camera position and forward vector, and the held object's position;
- key presses, as booleans;
- `controller.isGrounded`, the Mouse Y axis and `deltaTime`.

`Update` and `FixedUpdate` are separate methods that a caller may invoke in any order.

Two behaviours of the scripts are easy to miss:
- Drop sets `useGravity` to true and `freezeRotation` to false
  (WhereVimto/Assets/FirstPersonCarry.cs:85-86). It does not restore the values the body had
  before the pickup.
- `hasTriggered` is reset on a Player enter as well as on a Player exit
  (WhereVimto/Assets/Scripts/EnvironmentTrigger.cs:28). Any enter therefore re-arms the trigger,
  even without an exit before it.

## Model

| member | source | states |
|---|---|---|
| FacingTrigger.EnterStep | WhereVimto/Assets/Scripts/EnvironmentTrigger.cs:22-30 | a Player-tagged enter makes the collider the occupant and leaves the trigger armed from any state; any other tag changes nothing |
| FacingTrigger.ExitStep | WhereVimto/Assets/Scripts/EnvironmentTrigger.cs:32-40 | a Player-tagged exit empties the zone (not inside, no occupant, not fired) whether or not it had fired; any other tag changes nothing |
| FacingTrigger.UpdateStep | WhereVimto/Assets/Scripts/EnvironmentTrigger.cs:42-53 | firing happens exactly when armed and angle <= threshold; it sets hasTriggered, keeps the occupant and disarms; otherwise the state is unchanged |
| FacingTrigger.SetAllActive | WhereVimto/Assets/Scripts/EnvironmentTrigger.cs:55-59 | after one activation loop every id named by a non-null entry has the loop's flag, null entries add nothing, and every other id keeps its state |
| FacingTrigger.Fire | WhereVimto/Assets/Scripts/EnvironmentTrigger.cs:55-59 | after firing, ids in the disable list are inactive (also when in both lists), ids only in the enable list are active, and ids in neither keep their state |
| FacingTrigger.FiresOncePerOccupancy | WhereVimto/Assets/Scripts/EnvironmentTrigger.cs:44-53 | with no Player enter or exit in a run of events, the trigger fires exactly once if it was armed and some frame's angle is within the threshold, and never otherwise; so at most once per occupancy and never again once fired |
| FacingTrigger.StepKeepsConsistent | WhereVimto/Assets/Scripts/EnvironmentTrigger.cs:22-53 | every event keeps presence and occupant together, and hasTriggered can be set only while the player is inside |
| FacingTrigger.EnvironmentFacingTrigger.constructor | WhereVimto/Assets/Scripts/EnvironmentTrigger.cs:7-20 | starts empty and unfired with the given threshold and target arrays |
| FacingTrigger.EnvironmentFacingTrigger.Default | WhereVimto/Assets/Scripts/EnvironmentTrigger.cs:10-20 | a fresh component: threshold 45 degrees, empty enable and disable arrays (as the inspector serialises unset arrays), empty and unfired |
| FacingTrigger.EnvironmentFacingTrigger.OnTriggerEnter | WhereVimto/Assets/Scripts/EnvironmentTrigger.cs:22-30 | the fields become EnterStep of the old fields |
| FacingTrigger.EnvironmentFacingTrigger.OnTriggerExit | WhereVimto/Assets/Scripts/EnvironmentTrigger.cs:32-40 | the fields become ExitStep of the old fields |
| FacingTrigger.EnvironmentFacingTrigger.Update | WhereVimto/Assets/Scripts/EnvironmentTrigger.cs:42-64 | the fields become UpdateStep of the old fields; the scene becomes Fire of the old scene over the two arrays when the trigger fires, and is unchanged otherwise |
| FacingTrigger.EnvironmentFacingTrigger.ActivateAll | WhereVimto/Assets/Scripts/EnvironmentTrigger.cs:55-59 | the foreach loop leaves the scene equal to SetAllActive of the old scene over the array's contents |
| Carry.PickupStep | WhereVimto/Assets/FirstPersonCarry.cs:47-66 | pickup succeeds exactly on a hit within pickupRange with the carriable tag; the hit object is then held with its optional rigidbody, and that body gets gravity off and rotation frozen with every other body unchanged; a miss or another tag changes nothing |
| Carry.DropStep | WhereVimto/Assets/FirstPersonCarry.cs:81-91 | drop ends Idle; a held rigidbody gets gravity on and rotation unfrozen and every other body is unchanged; with no rigidbody no body changes |
| Carry.UpdateStep | WhereVimto/Assets/FirstPersonCarry.cs:20-37 | the pickup key acts only when Idle and the drop key only when Holding; with neither key, a held pickup key, or a failed pickup, nothing changes; with both keys while Idle the frame is the pickup followed by the drop |
| Carry.FixedStep | WhereVimto/Assets/FirstPersonCarry.cs:39-45 | a physics tick never changes what is held; it sets only the held rigidbody's velocity to the servo velocity; while idle or holding an object without a rigidbody it changes nothing |
| Carry.ServoZeroAtTarget | WhereVimto/Assets/FirstPersonCarry.cs:70-75 | for a nonzero moveSmoothSpeed, the servo velocity is zero exactly when the object is at camera position + forward × holdDistance |
| Carry.UpdateKeepsHoldInvariant | WhereVimto/Assets/FirstPersonCarry.cs:22-63 | a frame keeps the invariant that a held rigidbody has gravity off and rotation frozen |
| Carry.FixedKeepsHoldInvariant | WhereVimto/Assets/FirstPersonCarry.cs:68-79 | a physics tick keeps the same invariant |
| Carry.FixedSteps | WhereVimto/Assets/FirstPersonCarry.cs:39-45 | any number of physics ticks keep what is held and the set of bodies |
| Carry.FixedStepsKeepFlags | WhereVimto/Assets/FirstPersonCarry.cs:73-78 | any number of physics ticks keep every body's gravity and rotation flags |
| Carry.PickupHoldDrop | WhereVimto/Assets/FirstPersonCarry.cs:56-90 | after a pickup of a body and any number of physics ticks, the body is still held with gravity off and rotation frozen; the drop then ends Idle with gravity on and rotation unfrozen |
| Carry.BothKeysWhileIdle | WhereVimto/Assets/FirstPersonCarry.cs:22-36 | with both keys pressed while Idle, the pickup runs before the drop: the frame ends Idle, a picked-up body has its flags restored, and a failed pickup changes nothing |
| Carry.FirstPersonCarry.constructor | WhereVimto/Assets/FirstPersonCarry.cs:17-18 | starts Idle with both references null |
| Carry.FirstPersonCarry.Default | WhereVimto/Assets/FirstPersonCarry.cs:6-18 | a fresh component: pickupRange 3, tag "Carriable", holdDistance 1.5, moveSmoothSpeed 10, Idle |
| Carry.FirstPersonCarry.Update | WhereVimto/Assets/FirstPersonCarry.cs:20-37 | the references and bodies become UpdateStep of the old ones |
| Carry.FirstPersonCarry.FixedUpdate | WhereVimto/Assets/FirstPersonCarry.cs:39-45 | the bodies become FixedStep of the old ones |
| Carry.FirstPersonCarry.TryPickup | WhereVimto/Assets/FirstPersonCarry.cs:47-66 | the references and bodies become PickupStep of the old ones |
| Carry.FirstPersonCarry.MoveHeldObject | WhereVimto/Assets/FirstPersonCarry.cs:68-79 | the bodies become FixedStep of the old ones |
| Carry.FirstPersonCarry.DropObject | WhereVimto/Assets/FirstPersonCarry.cs:81-91 | ends Idle; the references and bodies become DropStep of the old ones |
| Movement.Clamp | WhereVimto/Assets/PlayerMovement.cs:50 | Mathf.Clamp returns min below the range, max above it (for min <= max), and the value itself inside; the result lies in [min, max] |
| Movement.VerticalVelocity | WhereVimto/Assets/PlayerMovement.cs:26-42 | a grounded jump gives jumpForce − gravity·dt and overrides the −2 clamp; airborne gives vy − gravity·dt with no reset; grounded without a jump never goes below −2 before gravity and is −2 − gravity·dt when falling |
| Movement.AirborneJumpIgnored | WhereVimto/Assets/PlayerMovement.cs:37-40 | a jump pressed while airborne has no effect on velocity.y |
| Movement.Pitch | WhereVimto/Assets/PlayerMovement.cs:49-50 | xRotation after the mouse delta lies in [−90, 90] for any input; it equals old − delta when that is in range, −90 when it is below and 90 when it is above |
| Movement.UpdateStep | WhereVimto/Assets/PlayerMovement.cs:22-54 | velocity.y becomes VerticalVelocity of the old value and xRotation becomes Pitch of the old value; only velocity.y is written, so velocity.x and velocity.z are kept; isGrounded takes the controller's value; xRotation ends in [−90, 90] |
| Movement.RunKeepsInv | WhereVimto/Assets/PlayerMovement.cs:12-50 | over any sequence of frames, velocity.x and velocity.z stay zero and xRotation stays in [−90, 90] |
| Movement.PlayerMovement.constructor | WhereVimto/Assets/PlayerMovement.cs:12-14 | starts with zero velocity, not grounded and zero pitch |
| Movement.PlayerMovement.Default | WhereVimto/Assets/PlayerMovement.cs:6-14 | a fresh component: jumpForce 7, gravity 9.81, mouseSensitivity 2, zero velocity, not grounded, zero pitch |
| Movement.PlayerMovement.Update | WhereVimto/Assets/PlayerMovement.cs:22-54 | the fields become UpdateStep of the old fields; xRotation ends in [−90, 90]; zero horizontal velocity is kept |

## Left out

- `requiredFacingDirection`, `Vector3.Angle` and normalisation are engine geometry. The angle is
  an input to `Update`.
- `Debug.Log` calls and both `OnDrawGizmos` methods are editor logging and drawing only. This
  also covers `holdPoint`, which only the gizmo reads.
- The rotation servo is float geometry: `Quaternion.LookRotation`, `Slerp`, `MoveRotation` and
  `rotateSmoothSpeed`. Only the velocity part of `MoveHeldObject` is modelled.
- `Physics.Raycast`, `Camera.main` and `GetComponent` are engine services. The hit is an input
  `Option<Hit>`, and `pickupRange` is applied to the hit's distance.
- `CompareTag` is the engine's tag check. It is modelled as string equality.
- `Input.GetKeyDown`, `GetButtonDown` and `GetAxis` are engine input. Each is a boolean or real
  parameter, so `pickupKey`/`dropKey` are not represented.
- Horizontal movement is only handed to the engine's `controller.Move`
  (WhereVimto/Assets/PlayerMovement.cs:31-35), so it is not modelled. This covers `moveSpeed`.
- The second `controller.Move` call (WhereVimto/Assets/PlayerMovement.cs:43) hands the modelled
  `velocity` times `deltaTime` to the engine's character controller. The displacement it causes
  is engine physics and is not modelled; only the `velocity` it reads is.
- The Mouse X yaw (`transform.Rotate`), the camera's `Quaternion.Euler`, and `Start`'s
  `GetComponent` and cursor lock are engine calls with no logic of their own.
- A missing `Camera.main` (WhereVimto/Assets/FirstPersonCarry.cs:49, 70), `controller`
  (WhereVimto/Assets/PlayerMovement.cs:24) or `playerCamera`
  (WhereVimto/Assets/PlayerMovement.cs:52) throws a NullReferenceException in the scripts. The
  model assumes these references are present. A missing `controller` throws before `Update`
  writes any field; a missing `playerCamera` throws after `xRotation` is written, so the
  modelled state is still the one the script leaves behind.
- Floats are modelled as `real`. No rounding is claimed.
- Unity's null semantics for destroyed objects are not modelled. A destroyed occupant transform
  or held object compares equal to null in Unity. In the model, references become null only
  where the scripts assign null.
- Frame-tick versus physics-tick scheduling is not modelled. `Update` and `FixedUpdate` are
  independent methods.
- `Carry.PickupStep`, `Carry.DropStep`, `Carry.UpdateStep`, `Carry.FixedStep`,
  `Carry.FixedSteps` and the carry methods require that a rigidbody id in the hit, and the held
  rigidbody id, are present in the rigidbody registry. The engine
  guarantees this for live components.
