/** The parts of the host engine the three behaviours read and write: optional references,
    object identities, 3-vectors over the reals, the scene's object-activation registry and the
    rigidbody registry. Engine geometry (angles, quaternions, raycasts) is not modelled here:
    its results reach the behaviours as method parameters. */
module Engine {

  /** An engine reference that may be null. */
  datatype Option<+T> = None | Some(value: T)

  /** Identities of engine objects. */
  type ObjectId = nat
  type TransformId = nat
  type BodyId = nat

  /** A Vector3 with real components (no floating-point rounding is modelled). */
  datatype Vec3 = Vec3(x: real, y: real, z: real)

  const Zero := Vec3(0.0, 0.0, 0.0)

  function Add(a: Vec3, b: Vec3): (r: Vec3) {
    Vec3(a.x + b.x, a.y + b.y, a.z + b.z)
  }

  function Sub(a: Vec3, b: Vec3): (r: Vec3)
    ensures Add(r, b) == a
  {
    Vec3(a.x - b.x, a.y - b.y, a.z - b.z)
  }

  /** Subtracting b undoes adding it, and adding b undoes subtracting it. */
  lemma AddSubInverse(a: Vec3, b: Vec3)
    ensures Sub(Add(a, b), b) == a
    ensures Add(Sub(a, b), b) == a
  {
  }

  function Scale(a: Vec3, k: real): (r: Vec3)
    ensures k != 0.0 ==> (r == Zero <==> a == Zero)
  {
    Vec3(a.x * k, a.y * k, a.z * k)
  }

  /** The activation state of the scene's game objects (GameObject.SetActive). */
  class Scene {
    var active: map<ObjectId, bool>

    constructor (initial: map<ObjectId, bool>)
      ensures active == initial
    {
      active := initial;
    }

    method SetActive(id: ObjectId, flag: bool)
      modifies this
      ensures active == old(active)[id := flag]
    {
      active := active[id := flag];
    }
  }

  /** The three Rigidbody properties the carry interactor writes. */
  datatype Rigidbody = Rigidbody(useGravity: bool, freezeRotation: bool, linearVelocity: Vec3)

  /** The rigidbodies of the scene, by identity. */
  class PhysicsWorld {
    var bodies: map<BodyId, Rigidbody>

    constructor (initial: map<BodyId, Rigidbody>)
      ensures bodies == initial
    {
      bodies := initial;
    }
  }
}
