/** Shapes of the values the roll engine passes around (the interfaces of
    src/app/types.ts and src/app/lib/types.ts), plus the small amount of
    vector arithmetic that the core borrows from its 3D libraries. */
module Types {

  datatype Option<T> = None | Some(value: T)

  /** A die face, the keys 1..6 of the face-normal table. */
  type FaceIndex = f: int | 1 <= f <= 6 witness 1

  /** A point or direction, as the `[x, y, z]` tuples of the source. */
  datatype Vec3 = Vec3(x: real, y: real, z: real)

  /** A rotation in `[x, y, z, w]` order, as `Quaternion.toArray()` yields it. */
  datatype Quat = Quat(x: real, y: real, z: real, w: real)

  const Identity: Quat := Quat(0.0, 0.0, 0.0, 1.0)
  const Zero: Vec3 := Vec3(0.0, 0.0, 0.0)

  function Add(a: Vec3, b: Vec3): Vec3 { Vec3(a.x + b.x, a.y + b.y, a.z + b.z) }
  function Sub(a: Vec3, b: Vec3): Vec3 { Vec3(a.x - b.x, a.y - b.y, a.z - b.z) }
  function Scale(a: Vec3, k: real): Vec3 { Vec3(a.x * k, a.y * k, a.z * k) }
  function Neg(a: Vec3): Vec3 { Vec3(-a.x, -a.y, -a.z) }
  function Dot(a: Vec3, b: Vec3): real { a.x * b.x + a.y * b.y + a.z * b.z }
  /** The squared Euclidean length; the length itself needs a square root. */
  function SqNorm(a: Vec3): real { Dot(a, a) }

  function Min(a: real, b: real): real { if a <= b then a else b }

  /** One pre-solve result: the face a die settled on and its slot index. */
  datatype FaceIndexData = FaceIndexData(face: FaceIndex, index: int)

  /** A throw plan: initial impulse, spin and orientation of one die. */
  datatype RollReadyState = RollReadyState(velocity: Vec3, angleVelocity: Vec3, rotate: Quat)

  /** A staging pose a body is moved towards before the throw. */
  datatype CubeTargetState = CubeTargetState(position: Vec3, rotate: Quat)

  /** The data snapshot the orchestrator publishes after every change. */
  datatype ProviderData = ProviderData(
    targetValues: seq<FaceIndex>,
    facesData: seq<FaceIndexData>,
    isLoading: bool,
    isAnimation: bool,
    isFinal: bool)

  /** A partial update: every field is optional, present fields override. */
  datatype DataUpdate = DataUpdate(
    targetValues: Option<seq<FaceIndex>>,
    facesData: Option<seq<FaceIndexData>>,
    isLoading: Option<bool>,
    isAnimation: Option<bool>,
    isFinal: Option<bool>)

  const NoUpdate: DataUpdate := DataUpdate(None, None, None, None, None)

  /** `{ ...data, ...value }`: the fields present in the update win. */
  function Merge(data: ProviderData, value: DataUpdate): ProviderData
  {
    ProviderData(
      if value.targetValues.Some? then value.targetValues.value else data.targetValues,
      if value.facesData.Some? then value.facesData.value else data.facesData,
      if value.isLoading.Some? then value.isLoading.value else data.isLoading,
      if value.isAnimation.Some? then value.isAnimation.value else data.isAnimation,
      if value.isFinal.Some? then value.isFinal.value else data.isFinal)
  }

  /** The state of one rigid body: pose and velocities. */
  datatype BodyState = BodyState(position: Vec3, quaternion: Quat, velocity: Vec3, angularVelocity: Vec3)

  /** A body as `createCube` makes it: at rest, unrotated, at `position`. */
  function RestingBodyAt(position: Vec3): BodyState
  {
    BodyState(position, Identity, Zero, Zero)
  }

  /** The four coarse phases of the orchestrator. */
  datatype ProviderStage = CONFIG | LOADING | ANIMATION | FINAL
}
