/** The constant tables and tuning values of src/app/lib/constants.ts. */
module Constants {
  import opened Types

  /** The outward normal of each face in the die's local frame. */
  function FaceVector(f: FaceIndex): Vec3
  {
    if f == 1 then Vec3(0.0, 1.0, 0.0)        // top
    else if f == 2 then Vec3(0.0, 0.0, -1.0)  // back
    else if f == 3 then Vec3(1.0, 0.0, 0.0)   // right
    else if f == 4 then Vec3(-1.0, 0.0, 0.0)  // left
    else if f == 5 then Vec3(0.0, 0.0, 1.0)   // front
    else Vec3(0.0, -1.0, 0.0)                 // bottom
  }

  /** The face texture used for each material slot of the die mesh. */
  const cubeMaterialsNumbers: seq<FaceIndex> := [3, 4, 1, 6, 5, 2]

  const cubeSize: real := 0.7
  const cubeOffset: real := cubeSize * 2.0
  const cubeDefaultY: real := cubeSize * 4.0

  /** The fixed staging orientation used when the roster is resynced. */
  const defaultCubeRotateQ: Quat :=
    Quat(0.3535533905932738, 0.3535533905932738, 0.14644660940672624, 0.8535533905932737)

  const initialSceneProviderData: ProviderData := ProviderData([], [], false, false, false)

  /** Consecutive calm steps needed before a roll counts as settled. */
  const restConfirmations: nat := 50
  /** Steps after which every step counts as calm. */
  const stepsConfirmations: nat := 500

  const gravitationValue: real := -9.82
  const activeGravity: Vec3 := Vec3(0.0, gravitationValue, 0.0)

  /** Every face normal is a unit vector along one axis. */
  lemma FaceVectorIsUnitAxis(f: FaceIndex)
    ensures SqNorm(FaceVector(f)) == 1.0
    ensures var v := FaceVector(f);
      (v.x != 0.0 ==> v.y == 0.0 && v.z == 0.0) && (v.y != 0.0 ==> v.z == 0.0)
  {
    if f == 1 {} else if f == 2 {} else if f == 3 {} else if f == 4 {} else if f == 5 {} else {}
  }

  /** Opposite faces of the table are exact negations: 1/6, 2/5, 3/4. */
  lemma FaceVectorsOpposite(f: FaceIndex)
    ensures FaceVector((7 - f) as FaceIndex) == Neg(FaceVector(f))
  {
  }

  /** The face whose normal is the signed axis direction `v` (the inverse
      of the face-normal table on the six axis directions). */
  function AxisFace(v: Vec3): FaceIndex
  {
    if v.y == 1.0 then 1
    else if v.z == -1.0 then 2
    else if v.x == 1.0 then 3
    else if v.x == -1.0 then 4
    else if v.z == 1.0 then 5
    else 6
  }

  /** The six normals are pairwise distinct, because each one reads back as
      its own face. */
  lemma FaceVectorsDistinct(f: FaceIndex, g: FaceIndex)
    ensures FaceVector(f) == FaceVector(g) <==> f == g
  {
    AxisFaceRoundTrip(f);
    AxisFaceRoundTrip(g);
  }

  /** Reading the face back from its normal gives the face again. */
  lemma AxisFaceRoundTrip(f: FaceIndex)
    ensures AxisFace(FaceVector(f)) == f
  {
    if f == 1 {} else if f == 2 {} else if f == 3 {} else if f == 4 {} else if f == 5 {} else {}
  }

  /** The material order lists every face exactly once. */
  lemma CubeMaterialsArePermutation()
    ensures |cubeMaterialsNumbers| == 6
    ensures forall f: FaceIndex :: f in cubeMaterialsNumbers
    ensures forall i, j :: 0 <= i < j < 6 ==> cubeMaterialsNumbers[i] != cubeMaterialsNumbers[j]
  {
  }

  /** The initial snapshot: no roster, no results, every phase flag down. */
  lemma InitialDataIsConfig()
    ensures initialSceneProviderData.targetValues == [] && initialSceneProviderData.facesData == []
    ensures !initialSceneProviderData.isLoading && !initialSceneProviderData.isAnimation
    ensures !initialSceneProviderData.isFinal
  {
  }

  /** Adjacent layout slots are one die width apart, and the calm-step
      count is reached well before the step cap. */
  lemma LayoutAndCounterConstants()
    ensures cubeOffset == 2.0 * cubeSize && cubeOffset > cubeSize
    ensures restConfirmations < stepsConfirmations
    ensures cubeDefaultY > 0.0
  {
  }
}
