/** FirstPersonCarry: pick up a tagged object the camera ray hits within range, servo it to a
    point in front of the camera on every physics tick, and drop it. The raycast result, the
    camera pose and the held object's position are supplied by the caller. */
module Carry {
  import opened Engine

  /** The default tag of objects that can be carried. */
  const DefaultCarriableTag := "Carriable"

  /** The inspector settings the logic reads (pickupRange, carriableTag, holdDistance,
      moveSmoothSpeed). */
  datatype CarryConfig = CarryConfig(pickupRange: real, carriableTag: string, holdDistance: real, moveSmoothSpeed: real)

  /** FirstPersonCarry's inspector defaults. */
  const DefaultConfig := CarryConfig(3.0, DefaultCarriableTag, 1.5, 10.0)

  /** The nearest hit of the camera ray: its collider's tag, its distance, its game object and
      that object's Rigidbody component, if it has one. */
  datatype Hit = Hit(tag: string, distance: real, obj: ObjectId, body: Option<BodyId>)

  /** heldObject / heldRigidbody: Idle when heldObject is null. */
  datatype CarryState = Idle | Holding(obj: ObjectId, body: Option<BodyId>)

  /** The interactor's state together with the rigidbodies it writes. */
  datatype Snapshot = Snapshot(carry: CarryState, bodies: map<BodyId, Rigidbody>)

  /** The engine's own guarantee: a rigidbody component that a hit reports exists. */
  predicate HitKnown(ray: Option<Hit>, bodies: map<BodyId, Rigidbody>) {
    ray.Some? && ray.value.body.Some? ==> ray.value.body.value in bodies
  }

  /** A held rigidbody exists. */
  predicate HeldKnown(s: Snapshot) {
    s.carry.Holding? && s.carry.body.Some? ==> s.carry.body.value in s.bodies
  }

  /** The ray hit something within pickupRange whose tag is carriableTag. */
  predicate Carriable(cfg: CarryConfig, ray: Option<Hit>) {
    ray.Some? && ray.value.distance <= cfg.pickupRange && ray.value.tag == cfg.carriableTag
  }

  /** b is unchanged between the two body maps. */
  predicate SameBody(before: map<BodyId, Rigidbody>, after: map<BodyId, Rigidbody>, b: BodyId) {
    b in before && b in after && after[b] == before[b]
  }

  /** TryPickup: a carriable hit becomes the held object; its rigidbody, if any, loses gravity
      and has its rotation frozen. Anything else changes nothing. */
  function PickupStep(cfg: CarryConfig, s: Snapshot, ray: Option<Hit>): (r: Snapshot)
    requires HitKnown(ray, s.bodies)
    ensures r.bodies.Keys == s.bodies.Keys
    ensures Carriable(cfg, ray) ==> r.carry == Holding(ray.value.obj, ray.value.body) && HeldKnown(r)
    ensures Carriable(cfg, ray) && ray.value.body.Some? ==>
              var b := ray.value.body.value;
              !r.bodies[b].useGravity && r.bodies[b].freezeRotation
              && r.bodies[b].linearVelocity == s.bodies[b].linearVelocity
              && forall b' :: b' in s.bodies && b' != b ==> SameBody(s.bodies, r.bodies, b')
    ensures Carriable(cfg, ray) && ray.value.body.None? ==> r.bodies == s.bodies
    ensures !Carriable(cfg, ray) ==> r == s
  {
    if Carriable(cfg, ray) then
      var hit := ray.value;
      match hit.body
      case None => Snapshot(Holding(hit.obj, None), s.bodies)
      case Some(b) =>
        Snapshot(Holding(hit.obj, Some(b)), s.bodies[b := s.bodies[b].(useGravity := false, freezeRotation := true)])
    else s
  }

  /** DropObject: a held rigidbody regains gravity and free rotation; both references are
      cleared. */
  function DropStep(s: Snapshot): (r: Snapshot)
    requires HeldKnown(s)
    ensures r.carry == Idle
    ensures r.bodies.Keys == s.bodies.Keys
    ensures s.carry.Holding? && s.carry.body.Some? ==>
              var b := s.carry.body.value;
              r.bodies[b].useGravity && !r.bodies[b].freezeRotation
              && r.bodies[b].linearVelocity == s.bodies[b].linearVelocity
              && forall b' :: b' in s.bodies && b' != b ==> SameBody(s.bodies, r.bodies, b')
    ensures !(s.carry.Holding? && s.carry.body.Some?) ==> r.bodies == s.bodies
  {
    match s.carry
    case Holding(_, Some(b)) =>
      Snapshot(Idle, s.bodies[b := s.bodies[b].(useGravity := true, freezeRotation := false)])
    case _ => Snapshot(Idle, s.bodies)
  }

  /** Update: the pickup key tries a pickup only when idle; then the drop key drops only when
      something is held. */
  function UpdateStep(cfg: CarryConfig, s: Snapshot, pickupDown: bool, dropDown: bool, ray: Option<Hit>): (r: Snapshot)
    requires HeldKnown(s) && HitKnown(ray, s.bodies)
    ensures HeldKnown(r) && r.bodies.Keys == s.bodies.Keys
    ensures !pickupDown && !dropDown ==> r == s
    ensures s.carry.Holding? && !dropDown ==> r == s
    ensures s.carry.Idle? && (!pickupDown || !Carriable(cfg, ray)) ==> r == s
    ensures s.carry.Holding? && dropDown ==> r == DropStep(s)
    ensures s.carry.Idle? && pickupDown && !dropDown ==> r == PickupStep(cfg, s, ray)
    ensures s.carry.Idle? && pickupDown && dropDown ==> r == DropStep(PickupStep(cfg, s, ray))
  {
    var afterPickup := if pickupDown && s.carry.Idle? then PickupStep(cfg, s, ray) else s;
    if dropDown && afterPickup.carry.Holding? then DropStep(afterPickup) else afterPickup
  }

  /** The hold target: camera position plus camera forward times holdDistance. */
  function HoldTarget(cfg: CarryConfig, camPos: Vec3, camForward: Vec3): Vec3 {
    Add(camPos, Scale(camForward, cfg.holdDistance))
  }

  /** MoveHeldObject's velocity: the offset to the hold target scaled by moveSmoothSpeed. */
  function ServoVelocity(cfg: CarryConfig, camPos: Vec3, camForward: Vec3, objPos: Vec3): Vec3 {
    Scale(Sub(HoldTarget(cfg, camPos, camForward), objPos), cfg.moveSmoothSpeed)
  }

  /** FixedUpdate: only a held object with a rigidbody is servoed, and only its velocity changes. */
  function FixedStep(cfg: CarryConfig, s: Snapshot, camPos: Vec3, camForward: Vec3, objPos: Vec3): (r: Snapshot)
    requires HeldKnown(s)
    ensures r.carry == s.carry && r.bodies.Keys == s.bodies.Keys && HeldKnown(r)
    ensures s.carry.Holding? && s.carry.body.Some? ==>
              var b := s.carry.body.value;
              r.bodies[b] == s.bodies[b].(linearVelocity := ServoVelocity(cfg, camPos, camForward, objPos))
              && forall b' :: b' in s.bodies && b' != b ==> SameBody(s.bodies, r.bodies, b')
    ensures !(s.carry.Holding? && s.carry.body.Some?) ==> r == s
  {
    match s.carry
    case Holding(_, Some(b)) =>
      s.(bodies := s.bodies[b := s.bodies[b].(linearVelocity := ServoVelocity(cfg, camPos, camForward, objPos))])
    case _ => s
  }

  /** The servo velocity is zero exactly when the object is at the hold target (for a nonzero
      gain). */
  lemma ServoZeroAtTarget(cfg: CarryConfig, camPos: Vec3, camForward: Vec3, objPos: Vec3)
    requires cfg.moveSmoothSpeed != 0.0
    ensures ServoVelocity(cfg, camPos, camForward, objPos) == Zero <==> objPos == HoldTarget(cfg, camPos, camForward)
  {
  }

  /** While an object with a rigidbody is held, that body has gravity off and rotation frozen. */
  predicate HoldInvariant(s: Snapshot) {
    HeldKnown(s)
    && (s.carry.Holding? && s.carry.body.Some? ==>
          !s.bodies[s.carry.body.value].useGravity && s.bodies[s.carry.body.value].freezeRotation)
  }

  lemma UpdateKeepsHoldInvariant(cfg: CarryConfig, s: Snapshot, pickupDown: bool, dropDown: bool, ray: Option<Hit>)
    requires HoldInvariant(s) && HitKnown(ray, s.bodies)
    ensures HoldInvariant(UpdateStep(cfg, s, pickupDown, dropDown, ray))
  {
  }

  lemma FixedKeepsHoldInvariant(cfg: CarryConfig, s: Snapshot, camPos: Vec3, camForward: Vec3, objPos: Vec3)
    requires HoldInvariant(s)
    ensures HoldInvariant(FixedStep(cfg, s, camPos, camForward, objPos))
  {
  }

  /** The inputs of one physics tick. */
  datatype Tick = Tick(camPos: Vec3, camForward: Vec3, objPos: Vec3)

  function FixedSteps(cfg: CarryConfig, s: Snapshot, ticks: seq<Tick>): (r: Snapshot)
    requires HeldKnown(s)
    ensures r.carry == s.carry && r.bodies.Keys == s.bodies.Keys && HeldKnown(r)
    decreases |ticks|
  {
    if |ticks| == 0 then s
    else FixedSteps(cfg, FixedStep(cfg, s, ticks[0].camPos, ticks[0].camForward, ticks[0].objPos), ticks[1..])
  }

  /** Physics ticks never change any body's gravity or rotation flag. */
  lemma {:induction false} FixedStepsKeepFlags(cfg: CarryConfig, s: Snapshot, ticks: seq<Tick>)
    requires HeldKnown(s)
    ensures forall b :: b in s.bodies ==>
              FixedSteps(cfg, s, ticks).bodies[b].useGravity == s.bodies[b].useGravity
              && FixedSteps(cfg, s, ticks).bodies[b].freezeRotation == s.bodies[b].freezeRotation
    decreases |ticks|
  {
    if |ticks| > 0 {
      var s1 := FixedStep(cfg, s, ticks[0].camPos, ticks[0].camForward, ticks[0].objPos);
      FixedStepsKeepFlags(cfg, s1, ticks[1..]);
    }
  }

  /** A pickup, any number of physics ticks, then a drop: throughout the ticks the object stays
      held with gravity off and rotation frozen; the drop ends Idle with gravity on and rotation
      unfrozen. */
  lemma PickupHoldDrop(cfg: CarryConfig, s: Snapshot, ray: Option<Hit>, ticks: seq<Tick>)
    requires s.carry == Idle && HitKnown(ray, s.bodies)
    requires Carriable(cfg, ray) && ray.value.body.Some?
    ensures var b := ray.value.body.value;
            var held := FixedSteps(cfg, UpdateStep(cfg, s, true, false, ray), ticks);
            var r := UpdateStep(cfg, held, false, true, None);
            held.carry == Holding(ray.value.obj, Some(b))
            && !held.bodies[b].useGravity && held.bodies[b].freezeRotation
            && r.carry == Idle && r.bodies[b].useGravity && !r.bodies[b].freezeRotation
  {
    var picked := UpdateStep(cfg, s, true, false, ray);
    FixedStepsKeepFlags(cfg, picked, ticks);
  }

  /** Both keys in one frame while idle: the pickup runs, then the drop, so the frame ends Idle
      and a body picked up ends with gravity on and rotation unfrozen. */
  lemma BothKeysWhileIdle(cfg: CarryConfig, s: Snapshot, ray: Option<Hit>)
    requires s.carry == Idle && HitKnown(ray, s.bodies)
    ensures var r := UpdateStep(cfg, s, true, true, ray);
            r.carry == Idle
            && (Carriable(cfg, ray) && ray.value.body.Some? ==>
                  r.bodies[ray.value.body.value].useGravity && !r.bodies[ray.value.body.value].freezeRotation)
            && (!Carriable(cfg, ray) ==> r == s)
  {
  }

  /** The carry interactor. holdPoint and rotateSmoothSpeed only feed gizmos and the rotation
      servo, which are not modelled. */
  class FirstPersonCarry {
    const config: CarryConfig
    var heldObject: Option<ObjectId>
    var heldRigidbody: Option<BodyId>

    /** heldRigidbody is only ever set together with heldObject. */
    predicate Valid()
      reads this
    {
      heldObject.None? ==> heldRigidbody.None?
    }

    function State(): CarryState
      reads this
    {
      if heldObject.None? then Idle else Holding(heldObject.value, heldRigidbody)
    }

    constructor (cfg: CarryConfig)
      ensures Valid() && State() == Idle && config == cfg
    {
      config := cfg;
      heldObject, heldRigidbody := None, None;
    }

    /** A component with the inspector defaults. */
    constructor Default()
      ensures Valid() && State() == Idle && config == DefaultConfig
    {
      config := DefaultConfig;
      heldObject, heldRigidbody := None, None;
    }

    method Update(pickupDown: bool, dropDown: bool, ray: Option<Hit>, world: PhysicsWorld)
      requires Valid() && HeldKnown(Snapshot(State(), world.bodies)) && HitKnown(ray, world.bodies)
      modifies this, world
      ensures Valid()
      ensures Snapshot(State(), world.bodies)
              == UpdateStep(config, Snapshot(old(State()), old(world.bodies)), pickupDown, dropDown, ray)
    {
      if pickupDown {
        if heldObject == None {
          TryPickup(ray, world);
        }
      }
      if dropDown {
        if heldObject != None {
          DropObject(world);
        }
      }
    }

    method FixedUpdate(camPos: Vec3, camForward: Vec3, objPos: Vec3, world: PhysicsWorld)
      requires Valid() && HeldKnown(Snapshot(State(), world.bodies))
      modifies world
      ensures Snapshot(State(), world.bodies)
              == FixedStep(config, Snapshot(State(), old(world.bodies)), camPos, camForward, objPos)
    {
      if heldObject != None {
        MoveHeldObject(camPos, camForward, objPos, world);
      }
    }

    method TryPickup(ray: Option<Hit>, world: PhysicsWorld)
      requires Valid() && HitKnown(ray, world.bodies)
      modifies this, world
      ensures Valid()
      ensures Snapshot(State(), world.bodies) == PickupStep(config, Snapshot(old(State()), old(world.bodies)), ray)
    {
      if ray.Some? && ray.value.distance <= config.pickupRange {
        var hit := ray.value;
        if hit.tag == config.carriableTag {
          heldObject := Some(hit.obj);
          heldRigidbody := hit.body;
          if heldRigidbody != None {
            var b := heldRigidbody.value;
            world.bodies := world.bodies[b := world.bodies[b].(useGravity := false)];
            world.bodies := world.bodies[b := world.bodies[b].(freezeRotation := true)];
          }
        }
      }
    }

    method MoveHeldObject(camPos: Vec3, camForward: Vec3, objPos: Vec3, world: PhysicsWorld)
      requires Valid() && HeldKnown(Snapshot(State(), world.bodies))
      modifies world
      ensures Snapshot(State(), world.bodies)
              == FixedStep(config, Snapshot(State(), old(world.bodies)), camPos, camForward, objPos)
    {
      var targetPosition := Add(camPos, Scale(camForward, config.holdDistance));
      var direction := Sub(targetPosition, objPos);
      if heldRigidbody != None {
        var b := heldRigidbody.value;
        world.bodies := world.bodies[b := world.bodies[b].(linearVelocity := Scale(direction, config.moveSmoothSpeed))];
      }
    }

    method DropObject(world: PhysicsWorld)
      requires Valid() && HeldKnown(Snapshot(State(), world.bodies))
      modifies this, world
      ensures Valid() && State() == Idle
      ensures Snapshot(State(), world.bodies) == DropStep(Snapshot(old(State()), old(world.bodies)))
    {
      if heldRigidbody != None {
        var b := heldRigidbody.value;
        world.bodies := world.bodies[b := world.bodies[b].(useGravity := true)];
        world.bodies := world.bodies[b := world.bodies[b].(freezeRotation := false)];
      }
      heldObject := None;
      heldRigidbody := None;
    }
  }
}
