/** EnvironmentFacingTrigger: a trigger zone that, once per occupancy by the player, fires when
    the occupant faces within a threshold angle of a required direction, enabling one list of
    scene objects and disabling another. The angle between the required direction and the
    occupant's forward vector is computed by the engine and supplied to Update. */
module FacingTrigger {
  import opened Engine

  /** The tag a collider must carry to count as the player. */
  const PlayerTag := "Player"

  /** The default facing threshold, in degrees. */
  const DefaultThresholdAngle := 45.0

  /** The collider of an enter or exit event: its tag and its transform. */
  datatype Collider = Collider(tag: string, transform: TransformId)

  /** The three private fields the trigger mutates. */
  datatype TriggerState = TriggerState(playerInside: bool, playerTransform: Option<TransformId>, hasTriggered: bool)

  /** The state before any event: no occupant, not fired. */
  const Empty := TriggerState(false, None, false)

  /** Update's guard: an occupant is present and the trigger has not fired for it yet. */
  predicate Armed(s: TriggerState) {
    s.playerInside && s.playerTransform.Some? && !s.hasTriggered
  }

  /** The trigger fires on this frame. */
  predicate FiresNow(s: TriggerState, angle: real, threshold: real) {
    Armed(s) && angle <= threshold
  }

  /** Fired only ever happens while occupied, and presence and the occupant go together. */
  predicate Consistent(s: TriggerState) {
    (s.playerInside <==> s.playerTransform.Some?) && (s.hasTriggered ==> s.playerInside)
  }

  /** OnTriggerEnter: a Player-tagged collider becomes the occupant and re-arms the trigger,
      whatever state the trigger was in; any other collider is ignored. */
  function EnterStep(s: TriggerState, other: Collider): (r: TriggerState)
    ensures other.tag == PlayerTag ==> Armed(r) && r.playerTransform == Some(other.transform)
    ensures other.tag != PlayerTag ==> r == s
  {
    if other.tag == PlayerTag then TriggerState(true, Some(other.transform), false) else s
  }

  /** OnTriggerExit: a Player-tagged collider empties the zone, fired or not; any other
      collider is ignored. */
  function ExitStep(s: TriggerState, other: Collider): (r: TriggerState)
    ensures other.tag == PlayerTag ==> r == Empty && !Armed(r)
    ensures other.tag != PlayerTag ==> r == s
  {
    if other.tag == PlayerTag then TriggerState(false, None, false) else s
  }

  /** The state part of Update: firing sets hasTriggered, which disarms the trigger; a frame
      that does not fire changes nothing. */
  function UpdateStep(s: TriggerState, angle: real, threshold: real): (r: TriggerState)
    ensures FiresNow(s, angle, threshold) ==> r.hasTriggered && !Armed(r)
    ensures FiresNow(s, angle, threshold) ==> r.playerInside == s.playerInside && r.playerTransform == s.playerTransform
    ensures !FiresNow(s, angle, threshold) ==> r == s
  {
    if Armed(s) && angle <= threshold then s.(hasTriggered := true) else s
  }

  /** The effect of one activation loop: each non-null target, in order, is set to flag. */
  function SetAllActive(active: map<ObjectId, bool>, targets: seq<Option<ObjectId>>, flag: bool): (r: map<ObjectId, bool>)
    ensures forall id :: id in r <==> id in active || Some(id) in targets
    ensures forall id :: id in r && Some(id) in targets ==> r[id] == flag
    ensures forall id :: id in active && Some(id) !in targets ==> r[id] == active[id]
    decreases |targets|
  {
    if |targets| == 0 then active
    else
      var init := targets[..|targets| - 1];
      assert targets == init + [targets[|targets| - 1]];
      var r0 := SetAllActive(active, init, flag);
      match targets[|targets| - 1]
      case None => r0
      case Some(id) => r0[id := flag]
  }

  /** The effect of firing on the scene: the enable loop, then the disable loop. */
  function Fire(active: map<ObjectId, bool>, toEnable: seq<Option<ObjectId>>, toDisable: seq<Option<ObjectId>>): (r: map<ObjectId, bool>)
    ensures forall id :: id in r <==> id in active || Some(id) in toEnable || Some(id) in toDisable
    ensures forall id :: Some(id) in toDisable ==> id in r && !r[id]
    ensures forall id :: Some(id) in toEnable && Some(id) !in toDisable ==> id in r && r[id]
    ensures forall id :: id in active && Some(id) !in toEnable && Some(id) !in toDisable ==> r[id] == active[id]
  {
    SetAllActive(SetAllActive(active, toEnable, true), toDisable, false)
  }

  /** The events that drive the trigger. */
  datatype Event = Entered(other: Collider) | Exited(other: Collider) | Frame(angle: real)

  /** An enter or exit of a Player-tagged collider: the only events that start or end an occupancy. */
  predicate IsPlayerEvent(e: Event) {
    !e.Frame? && e.other.tag == PlayerTag
  }

  function Step(s: TriggerState, e: Event, threshold: real): TriggerState {
    match e
    case Entered(other) => EnterStep(s, other)
    case Exited(other) => ExitStep(s, other)
    case Frame(angle) => UpdateStep(s, angle, threshold)
  }

  /** The number of frames in events on which the trigger fires, starting from s. */
  function FireCount(s: TriggerState, events: seq<Event>, threshold: real): nat
    decreases |events|
  {
    if |events| == 0 then 0
    else
      (if events[0].Frame? && FiresNow(s, events[0].angle, threshold) then 1 else 0)
      + FireCount(Step(s, events[0], threshold), events[1..], threshold)
  }

  /** Some frame of events has the occupant within the threshold. */
  predicate SomeFrameFacing(events: seq<Event>, threshold: real) {
    exists i :: 0 <= i < |events| && events[i].Frame? && events[i].angle <= threshold
  }

  /** Within one occupancy (no Player enter or exit), the trigger fires exactly once if it was
      armed and the occupant faces within the threshold on some frame, and never otherwise;
      in particular it fires at most once, and not at all once it has fired. */
  lemma {:induction false} FiresOncePerOccupancy(s: TriggerState, events: seq<Event>, threshold: real)
    requires forall i :: 0 <= i < |events| ==> !IsPlayerEvent(events[i])
    ensures FireCount(s, events, threshold) == if Armed(s) && SomeFrameFacing(events, threshold) then 1 else 0
    decreases |events|
  {
    if |events| > 0 {
      var e, rest := events[0], events[1..];
      var s' := Step(s, e, threshold);
      forall i | 0 <= i < |rest| ensures !IsPlayerEvent(rest[i]) {
        assert rest[i] == events[i + 1];
      }
      FiresOncePerOccupancy(s', rest, threshold);
      if SomeFrameFacing(rest, threshold) {
        var i :| 0 <= i < |rest| && rest[i].Frame? && rest[i].angle <= threshold;
        assert events[i + 1] == rest[i];
      }
      if SomeFrameFacing(events, threshold) && !(e.Frame? && e.angle <= threshold) {
        var i :| 0 <= i < |events| && events[i].Frame? && events[i].angle <= threshold;
        assert i > 0 && rest[i - 1] == events[i];
      }
    }
  }

  /** Every event keeps the trigger consistent: it fires only while occupied. */
  lemma StepKeepsConsistent(s: TriggerState, e: Event, threshold: real)
    requires Consistent(s)
    ensures Consistent(Step(s, e, threshold))
  {
  }

  /** The trigger zone. requiredFacingDirection is not modelled: the engine's angle between it
      and the occupant's forward vector is Update's parameter. */
  class EnvironmentFacingTrigger {
    const facingThresholdAngle: real
    const objectsToEnable: array<Option<ObjectId>>
    const objectsToDisable: array<Option<ObjectId>>

    var playerInside: bool
    var playerTransform: Option<TransformId>
    var hasTriggered: bool

    function State(): TriggerState
      reads this
    {
      TriggerState(playerInside, playerTransform, hasTriggered)
    }

    constructor (threshold: real, toEnable: array<Option<ObjectId>>, toDisable: array<Option<ObjectId>>)
      ensures State() == Empty
      ensures facingThresholdAngle == threshold
      ensures objectsToEnable == toEnable && objectsToDisable == toDisable
    {
      facingThresholdAngle := threshold;
      objectsToEnable, objectsToDisable := toEnable, toDisable;
      playerInside, playerTransform, hasTriggered := false, None, false;
    }

    /** A component with the inspector defaults: a 45 degree threshold and empty target arrays. */
    constructor Default()
      ensures State() == Empty
      ensures facingThresholdAngle == DefaultThresholdAngle
      ensures fresh(objectsToEnable) && fresh(objectsToDisable)
      ensures objectsToEnable.Length == 0 && objectsToDisable.Length == 0
    {
      facingThresholdAngle := DefaultThresholdAngle;
      objectsToEnable := new Option<ObjectId>[0];
      objectsToDisable := new Option<ObjectId>[0];
      playerInside, playerTransform, hasTriggered := false, None, false;
    }

    method OnTriggerEnter(other: Collider)
      modifies this
      ensures State() == EnterStep(old(State()), other)
    {
      if other.tag == PlayerTag {
        playerInside := true;
        playerTransform := Some(other.transform);
        hasTriggered := false;
      }
    }

    method OnTriggerExit(other: Collider)
      modifies this
      ensures State() == ExitStep(old(State()), other)
    {
      if other.tag == PlayerTag {
        playerInside := false;
        playerTransform := None;
        hasTriggered := false;
      }
    }

    /** One frame: fires when armed and angle is within the threshold, changing the scene only
        then. */
    method Update(angle: real, scene: Scene)
      modifies this, scene
      ensures State() == UpdateStep(old(State()), angle, facingThresholdAngle)
      ensures scene.active == if FiresNow(old(State()), angle, facingThresholdAngle)
                              then Fire(old(scene.active), objectsToEnable[..], objectsToDisable[..])
                              else old(scene.active)
    {
      if playerInside && playerTransform != None && !hasTriggered {
        if angle <= facingThresholdAngle {
          hasTriggered := true;
          ActivateAll(objectsToEnable, true, scene);
          ActivateAll(objectsToDisable, false, scene);
        }
      }
    }

    /** A foreach over targets calling SetActive(flag) on every non-null entry. */
    method ActivateAll(targets: array<Option<ObjectId>>, flag: bool, scene: Scene)
      modifies scene
      ensures scene.active == SetAllActive(old(scene.active), targets[..], flag)
    {
      var i := 0;
      while i < targets.Length
        invariant 0 <= i <= targets.Length
        invariant scene.active == SetAllActive(old(scene.active), targets[..i], flag)
      {
        assert targets[..i + 1][..i] == targets[..i];
        if targets[i].Some? {
          scene.SetActive(targets[i].value, flag);
        }
        i := i + 1;
      }
      assert targets[..] == targets[..targets.Length];
    }
  }
}
