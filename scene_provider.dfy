/** The roll orchestrator of src/app/lib/SceneProvider.ts. It holds the
    published data flags, the dice of the physics scene and the per-roll
    arrays (staging targets, throw plans, loading spins, face rotations),
    drives them frame by frame, and moves through the phases
    CONFIG -> LOADING -> ANIMATION -> FINAL -> CONFIG. */
module Provider {
  import opened Types
  import opened Constants
  import opened Sorting
  import opened Utils
  import Rest

  /** The identity of one die: its physics body and its mesh, created and
      removed together. */
  type CubeId = nat
  /** The identity of one pre-solve worker. */
  type WorkerId = nat

  /** One die of the scene: who it is and where its body is. */
  datatype Cube = Cube(id: CubeId, body: BodyState)

  /** The rotation `getFaceRotationQuant(from, to)` that shows face `to`
      where the pre-solve found face `from` on top. */
  datatype Alignment = Alignment(from: FaceIndex, to: FaceIndex)

  /** The extra rotation a die's mesh is turned through while it is
      staged: where it must end and where it is now. */
  datatype FaceRotationData = FaceRotationData(target: Alignment, current: Quat)

  /** The result of `rotateBodyTowards`. */
  datatype Turn = Turn(quant: Quat, isDone: bool)
  /** The result of `calcLoadingStep`. */
  datatype Spin = Spin(quant: Quat, isStartPosition: bool)

  /** The physics engine and the quaternion helpers the orchestrator calls,
      all outside the model: `world.step(1/60)` given gravity and bodies,
      `Vec3.length()`, `rotateBodyTowards`, `getFaceRotationQuant` and
      `calcLoadingStep`. */
  datatype Engine = Engine(
    worldStep: (Vec3, seq<BodyState>) -> seq<BodyState>,
    length: Vec3 -> real,
    rotateBodyTowards: (Quat, Quat) -> Turn,
    faceRotationQuant: Alignment -> Quat,
    loadingStep: (Quat, Vec3) -> Spin)

  /** What the model relies on: a step keeps every body, and `length` is the
      Euclidean norm. */
  ghost predicate Sound(engine: Engine)
  {
    && (forall g, bodies :: |engine.worldStep(g, bodies)| == |bodies|)
    && (forall v :: engine.length(v) >= 0.0 && engine.length(v) * engine.length(v) == SqNorm(v))
  }

  // ---------------------------------------------------------------------
  // setData: which updates resync what

  /** `targetValuesUpdatedLength`: the roster is rebuilt exactly when the
      update says `isFinal: false` or brings a roster of another length. */
  function ResyncTriggered(data: ProviderData, value: DataUpdate): (r: bool)
    ensures r <==> value.isFinal == Some(false) || |Merge(data, value).targetValues| != |data.targetValues|
  {
    value.isFinal == Some(false) ||
    (value.targetValues.Some? && |value.targetValues.value| != |data.targetValues|)
  }

  /** `facesOrTargetsUpdated`: the face rotations are recomputed exactly
      when the merge changes the pre-solve result or the roster. */
  function FacesOrTargetsUpdated(data: ProviderData, value: DataUpdate): (r: bool)
    ensures r <==> Merge(data, value).facesData != data.facesData || Merge(data, value).targetValues != data.targetValues
  {
    (value.facesData.Some? && !CompareArrays(value.facesData.value, data.facesData)) ||
    (value.targetValues.Some? && !CompareArrays(value.targetValues.value, data.targetValues))
  }

  /** A value edit that keeps the roster length (and does not say
      `isFinal: false`) never rebuilds the roster. */
  lemma SameLengthEditKeepsRoster(data: ProviderData, i: nat, v: FaceIndex)
    requires i < |data.targetValues|
    ensures !ResyncTriggered(data, NoUpdate.(targetValues := Some(data.targetValues[i := v])))
    ensures FacesOrTargetsUpdated(data, NoUpdate.(targetValues := Some(data.targetValues[i := v])))
      <==> data.targetValues[i] != v
  {
    var edited := data.targetValues[i := v];
    if data.targetValues[i] != v {
      assert edited[i] != data.targetValues[i];
    }
  }

  /** An update carrying every field of `d`, as `{ ...d }` is. */
  function Overwrite(d: ProviderData): (r: DataUpdate)
    ensures forall data :: Merge(data, r) == d
  {
    DataUpdate(Some(d.targetValues), Some(d.facesData), Some(d.isLoading), Some(d.isAnimation), Some(d.isFinal))
  }

  // ---------------------------------------------------------------------
  // #syncTargetValuesWithScene: the roster after a resync

  /** Every die has an id below `nextId` and no two dice share one. */
  predicate FreshIds(cubes: seq<Cube>, nextId: nat)
  {
    && (forall i :: 0 <= i < |cubes| ==> cubes[i].id < nextId)
    && (forall i, j :: 0 <= i < j < |cubes| ==> cubes[i].id != cubes[j].id)
  }

  /** Slot `i` of the resynced roster: the old die if there was one, else a
      new die at rest. The first new die is placed one `cubeOffset` right of
      the last old body; later ones (no old body before them) and the first
      of an empty scene go to their layout slot. */
  function ResyncedCube(oldCubes: seq<Cube>, cubesQty: nat, nextId: nat, i: nat): Cube
  {
    if i < |oldCubes| then oldCubes[i]
    else
      var coordX :=
        if i > 0 && i == |oldCubes| then oldCubes[i - 1].body.position.x + cubeOffset
        else CalcCubePosition(cubesQty, i).x;
      Cube(nextId + (i - |oldCubes|), RestingBodyAt(Vec3(coordX, cubeDefaultY, 0.0)))
  }

  function ResyncedCubes(oldCubes: seq<Cube>, cubesQty: nat, nextId: nat): (r: seq<Cube>)
    ensures |r| == cubesQty
    ensures forall i :: 0 <= i < |r| && i < |oldCubes| ==> r[i] == oldCubes[i]
    ensures forall i :: |oldCubes| <= i < |r| ==> r[i].id >= nextId && r[i].body.quaternion == Identity
  {
    seq(cubesQty, i requires 0 <= i < cubesQty => ResyncedCube(oldCubes, cubesQty, nextId, i))
  }

  /** The id counter after a resync: one id per new die. */
  function IdsAfterResync(oldQty: nat, cubesQty: nat, nextId: nat): nat
  {
    if cubesQty > oldQty then nextId + (cubesQty - oldQty) else nextId
  }

  /** Dice for freshly created bodies, numbered from `firstId`. */
  function NewCubes(bodies: seq<BodyState>, firstId: nat): (r: seq<Cube>)
    ensures |r| == |bodies|
    ensures forall i :: 0 <= i < |bodies| ==> r[i] == Cube(firstId + i, bodies[i])
    ensures FreshIds(r, firstId + |bodies|)
  {
    seq(|bodies|, i requires 0 <= i < |bodies| => Cube(firstId + i, bodies[i]))
  }

  /** A resync keeps ids unique and below the advanced counter. */
  lemma ResyncKeepsIdsFresh(oldCubes: seq<Cube>, cubesQty: nat, nextId: nat)
    requires FreshIds(oldCubes, nextId)
    ensures FreshIds(ResyncedCubes(oldCubes, cubesQty, nextId), IdsAfterResync(|oldCubes|, cubesQty, nextId))
  {
    var r := ResyncedCubes(oldCubes, cubesQty, nextId);
    forall i, j | 0 <= i < j < |r|
      ensures r[i].id != r[j].id
    {
      if j < |oldCubes| {
        assert r[i] == oldCubes[i] && r[j] == oldCubes[j];
      } else if i < |oldCubes| {
        assert r[i].id < nextId <= r[j].id;
      } else {
        assert r[i].id == nextId + (i - |oldCubes|);
        assert r[j].id == nextId + (j - |oldCubes|);
      }
    }
  }

  /** Shrinking removes exactly the trailing dice: an old die survives the
      resync if and only if its slot is below the new count. */
  lemma ResyncDropsExactlyTrailing(oldCubes: seq<Cube>, cubesQty: nat, nextId: nat, j: nat)
    requires FreshIds(oldCubes, nextId) && j < |oldCubes|
    ensures (exists k :: 0 <= k < cubesQty && ResyncedCubes(oldCubes, cubesQty, nextId)[k].id == oldCubes[j].id)
      <==> j < cubesQty
  {
    var r := ResyncedCubes(oldCubes, cubesQty, nextId);
    if j < cubesQty {
      assert r[j].id == oldCubes[j].id;
    } else {
      forall k | 0 <= k < cubesQty
        ensures r[k].id != oldCubes[j].id
      {
        if k < |oldCubes| {
          assert r[k] == oldCubes[k];
        }
      }
    }
  }

  /** A resync to the current count keeps every die as it is. */
  lemma ResyncSameCountKeepsAll(cubes: seq<Cube>, nextId: nat)
    ensures ResyncedCubes(cubes, |cubes|, nextId) == cubes
  {
  }

  /** The staging targets of a resync: each die's layout slot in the fixed
      staging orientation. */
  function StagingTargets(cubesQty: nat): (r: seq<CubeTargetState>)
    ensures |r| == cubesQty
    ensures forall i :: 0 <= i < cubesQty ==> r[i].rotate == defaultCubeRotateQ && r[i].position.y == cubeDefaultY
  {
    seq(cubesQty, i requires 0 <= i < cubesQty => CubeTargetState(CalcCubePosition(cubesQty, i), defaultCubeRotateQ))
  }

  /** The loop of `#syncTargetValuesWithScene`: walk the new slots, reuse
      the old die of each shared slot, create the missing ones, and collect a
      staging target and a throw plan per slot. The dice past `cubesQty` are
      the ones the source removes from the world. */
  method RebuildRoster(oldCubes: seq<Cube>, cubesQty: nat, nextId: nat, plans: seq<RollReadyState>)
    returns (newCubes: seq<Cube>, newTargetStates: seq<CubeTargetState>,
             newRollReadyStates: seq<RollReadyState>, nextIdAfter: nat)
    requires |plans| == cubesQty
    ensures newCubes == ResyncedCubes(oldCubes, cubesQty, nextId)
    ensures newTargetStates == StagingTargets(cubesQty)
    ensures newRollReadyStates == plans
    ensures nextIdAfter == IdsAfterResync(|oldCubes|, cubesQty, nextId)
  {
    newCubes, newTargetStates, newRollReadyStates := [], [], [];
    nextIdAfter := nextId;
    for i := 0 to cubesQty
      invariant |newCubes| == |newTargetStates| == |newRollReadyStates| == i
      invariant nextIdAfter == IdsAfterResync(|oldCubes|, i, nextId)
      invariant forall j :: 0 <= j < i ==> newCubes[j] == ResyncedCube(oldCubes, cubesQty, nextId, j)
      invariant forall j :: 0 <= j < i ==>
        newTargetStates[j] == CubeTargetState(CalcCubePosition(cubesQty, j), defaultCubeRotateQ)
      invariant newRollReadyStates == plans[..i]
    {
      var targetPosition := CalcCubePosition(cubesQty, i);
      var cube: Cube;
      if i < |oldCubes| {
        cube := oldCubes[i];
      } else {
        var coordX := if i > 0 && i - 1 < |oldCubes| then oldCubes[i - 1].body.position.x + cubeOffset
                      else targetPosition.x;
        cube := Cube(nextIdAfter, RestingBodyAt(Vec3(coordX, cubeDefaultY, 0.0)));
        nextIdAfter := nextIdAfter + 1;
      }
      newTargetStates := newTargetStates + [CubeTargetState(targetPosition, defaultCubeRotateQ)];
      newRollReadyStates := newRollReadyStates + [plans[i]];
      newCubes := newCubes + [cube];
    }
  }

  /** What the loop of `#syncTargetValuesWithScene` leaves as written: the
      `createCube` call for a slot with no old die passes `true` where the
      scene assets belong, so reading the dice model off it throws before the
      first new die exists. `Aborted` carries the dice pushed before the
      throw; `Rebuilt` the finished roster. */
  datatype RosterOutcome = Rebuilt(cubes: seq<Cube>) | Aborted(cubes: seq<Cube>)

  /** The loop of `#syncTargetValuesWithScene` as written: it reuses the old
      die of each shared slot and stops at the first slot that needs a new
      one. Growth therefore always aborts with exactly the old dice, one
      short of the new count or more; without growth it agrees with the
      intended `ResyncedCubes`. */
  method RebuildRosterAsWritten(oldCubes: seq<Cube>, cubesQty: nat, nextId: nat) returns (r: RosterOutcome)
    ensures r.Aborted? <==> cubesQty > |oldCubes|
    ensures r.Aborted? ==> r.cubes == oldCubes && |r.cubes| < cubesQty
    ensures r.Rebuilt? ==> r.cubes == ResyncedCubes(oldCubes, cubesQty, nextId)
  {
    var newCubes := [];
    var i := 0;
    while i < cubesQty
      invariant i <= cubesQty && i <= |oldCubes|
      invariant newCubes == oldCubes[..i]
    {
      if i == |oldCubes| {
        return Aborted(newCubes);
      }
      newCubes := newCubes + [oldCubes[i]];
      i := i + 1;
    }
    r := Rebuilt(newCubes);
  }

  /** The intended roster differs from the aborted one on growth: its first
      appended slot holds a die none of the old dice is. */
  lemma {:induction false} GrowthNeedsNewDie(oldCubes: seq<Cube>, cubesQty: nat, nextId: nat)
    requires FreshIds(oldCubes, nextId) && cubesQty > |oldCubes|
    ensures forall k :: 0 <= k < |oldCubes| ==> oldCubes[k] != ResyncedCubes(oldCubes, cubesQty, nextId)[|oldCubes|]
  {
    var added := ResyncedCubes(oldCubes, cubesQty, nextId)[|oldCubes|];
    assert added.id >= nextId;
  }

  /** The staging targets of `start()`: each die's layout slot in its own
      plan's orientation. */
  function StartTargets(plans: seq<RollReadyState>): (r: seq<CubeTargetState>)
    ensures |r| == |plans|
    ensures forall i :: 0 <= i < |plans| ==> r[i].rotate == plans[i].rotate && r[i].position.y == cubeDefaultY
  {
    seq(|plans|, i requires 0 <= i < |plans| => CubeTargetState(CalcCubePosition(|plans|, i), plans[i].rotate))
  }

  // ---------------------------------------------------------------------
  // #syncFacesRotationData

  /** One pre-solve entry paired with the value its position asks for. */
  type Tagged = (Alignment, int)

  function IndexKey(t: Tagged): Key
  {
    (t.1 as real, 0.0)
  }

  function TagAlignments(facesData: seq<FaceIndexData>, targetValues: seq<FaceIndex>): (r: seq<Tagged>)
    requires |facesData| == |targetValues|
    ensures |r| == |facesData|
  {
    seq(|facesData|, i requires 0 <= i < |facesData| =>
      (Alignment(facesData[i].face, targetValues[i]), facesData[i].index))
  }

  /** The pipeline map / toSorted by index / map: the i-th die from the left
      must show `targetValues[i]`; the rotations are listed by die index and
      start from no rotation. */
  function FacesRotation(facesData: seq<FaceIndexData>, targetValues: seq<FaceIndex>): (r: seq<FaceRotationData>)
    requires |facesData| == |targetValues|
    ensures |r| == |facesData|
    ensures forall k :: 0 <= k < |r| ==> r[k].current == Identity
  {
    var tagged := TagAlignments(facesData, targetValues);
    var order := StableOrder(tagged, IndexKey);
    seq(|order|, k requires 0 <= k < |order| => FaceRotationData(tagged[order[k]].0, Identity))
  }

  /** The indices of a pre-solve result. */
  function Indices(facesData: seq<FaceIndexData>): seq<int>
  {
    seq(|facesData|, i requires 0 <= i < |facesData| => facesData[i].index)
  }

  /** When the indices of the pre-solve result are a permutation of the die
      slots, die `facesData[i].index` is turned to show `targetValues[i]`. */
  lemma FacesRotationAssignsTargets(facesData: seq<FaceIndexData>, targetValues: seq<FaceIndex>, i: nat)
    requires |facesData| == |targetValues| && i < |facesData|
    requires IsPermutation(Indices(facesData), |facesData|)
    ensures 0 <= facesData[i].index < |facesData|
    ensures FacesRotation(facesData, targetValues)[facesData[i].index]
      == FaceRotationData(Alignment(facesData[i].face, targetValues[i]), Identity)
  {
    var n := |facesData|;
    var tagged := TagAlignments(facesData, targetValues);
    var order := StableOrder(tagged, IndexKey);
    var sortedIndices := seq(n, k requires 0 <= k < n => facesData[order[k]].index);
    assert Indices(facesData)[i] == facesData[i].index;
    forall a, b | 0 <= a < b < n
      ensures sortedIndices[a] < sortedIndices[b]
    {
      assert Precedes(tagged, IndexKey, order[a], order[b]);
      assert Indices(facesData)[order[a]] != Indices(facesData)[order[b]];
    }
    forall a | 0 <= a < n
      ensures 0 <= sortedIndices[a] < n
    {
      assert Indices(facesData)[order[a]] == sortedIndices[a];
    }
    StrictlyIncreasingIsIdentity(sortedIndices);
    assert i in order;
    var c :| 0 <= c < n && order[c] == i;
    assert sortedIndices[c] == facesData[i].index;
  }

  // ---------------------------------------------------------------------
  // #makeRoll: the throw

  /** The dice after the throw of `#makeRoll`: each body thrown by its plan. */
  function ThrowAll(cubes: seq<Cube>, plans: seq<RollReadyState>): (r: seq<Cube>)
    requires |plans| >= |cubes|
    ensures |r| == |cubes|
    ensures forall i :: 0 <= i < |cubes| ==> r[i] == cubes[i].(body := Thrown(cubes[i].body, plans[i]))
  {
    seq(|cubes|, i requires 0 <= i < |cubes| => cubes[i].(body := Thrown(cubes[i].body, plans[i])))
  }

  function Bodies(cubes: seq<Cube>): (r: seq<BodyState>)
    ensures |r| == |cubes| && forall i :: 0 <= i < |cubes| ==> r[i] == cubes[i].body
  {
    seq(|cubes|, i requires 0 <= i < |cubes| => cubes[i].body)
  }

  /** The per-die speeds the rest checker sums: linear plus angular. */
  function Speeds(engine: Engine, cubes: seq<Cube>): (r: seq<real>)
    ensures |r| == |cubes|
  {
    seq(|cubes|, i requires 0 <= i < |cubes| =>
      engine.length(cubes[i].body.velocity) + engine.length(cubes[i].body.angularVelocity))
  }

  // ---------------------------------------------------------------------
  // #animate: one frame, as functions of the state before it

  /** Changing the bodies of the dice keeps their identities fresh. */
  lemma SameIdsKeepFresh(cubes: seq<Cube>, newCubes: seq<Cube>, nextId: nat)
    requires FreshIds(cubes, nextId) && |newCubes| == |cubes|
    requires forall i :: 0 <= i < |cubes| ==> newCubes[i].id == cubes[i].id
    ensures FreshIds(newCubes, nextId)
  {
  }

  /** How many flags are set. */
  function Count(flags: seq<bool>): (r: nat)
    ensures r <= |flags|
  {
    if flags == [] then 0 else Count(flags[..|flags| - 1]) + (if flags[|flags| - 1] then 1 else 0)
  }

  /** All flags are counted exactly when all are set. */
  lemma {:induction false} CountAll(flags: seq<bool>)
    ensures Count(flags) == |flags| <==> forall j :: 0 <= j < |flags| ==> flags[j]
  {
    if flags != [] {
      var prefix := flags[..|flags| - 1];
      CountAll(prefix);
      assert forall j :: 0 <= j < |prefix| ==> prefix[j] == flags[j];
    }
  }

  /** Unset flags past `k` add nothing. */
  lemma {:induction false} CountIgnoresUnsetTail(flags: seq<bool>, k: nat)
    requires k <= |flags| && forall j :: k <= j < |flags| ==> !flags[j]
    ensures Count(flags) == Count(flags[..k])
  {
    if k < |flags| {
      var prefix := flags[..|flags| - 1];
      assert prefix[..k] == flags[..k];
      CountIgnoresUnsetTail(prefix, k);
    } else {
      assert flags[..k] == flags;
    }
  }

  /** When only the first `k` flags can be set, the count is `k` exactly
      when there are at least `k` flags and those are all set. */
  lemma CountReaches(flags: seq<bool>, k: nat)
    requires forall j :: k <= j < |flags| ==> !flags[j]
    ensures Count(flags) == k <==> k <= |flags| && forall j :: 0 <= j < k ==> flags[j]
  {
    if k <= |flags| {
      CountIgnoresUnsetTail(flags, k);
      CountAll(flags[..k]);
      assert forall j :: 0 <= j < k ==> flags[..k][j] == flags[j];
    }
  }

  lemma CountStep(flags: seq<bool>, i: nat)
    requires i < |flags|
    ensures Count(flags[..i + 1]) == Count(flags[..i]) + (if flags[i] then 1 else 0)
  {
    assert flags[..i + 1][..i] == flags[..i];
  }

  /** A staged die has arrived: closer than the snap distance and turned to
      its staging orientation. */
  ghost predicate TargetSettled(engine: Engine, body: BodyState, target: CubeTargetState)
  {
    && engine.length(Sub(target.position, body.position)) < defaultMinDelta
    && engine.rotateBodyTowards(body.quaternion, target.rotate).isDone
  }

  /** A body after one frame of moving and turning towards its target. */
  function StagedBody(engine: Engine, body: BodyState, target: CubeTargetState): BodyState
    requires Sound(engine)
  {
    var dist := engine.length(Sub(target.position, body.position));
    var move := MoveBodyTowards(body.position, target.position, dist, defaultMoveStep, defaultMinDelta);
    body.(position := move.vector, quaternion := engine.rotateBodyTowards(body.quaternion, target.rotate).quant)
  }

  /** Die `i`'s body at the end of the frame. */
  function FrameBody(engine: Engine, stepped: seq<BodyState>, targets: seq<CubeTargetState>, i: nat): BodyState
    requires Sound(engine) && i < |stepped|
  {
    if i < |targets| then StagedBody(engine, stepped[i], targets[i]) else stepped[i]
  }

  /** Which dice count towards `doneStatesQty`. */
  ghost function TargetFlags(engine: Engine, stepped: seq<BodyState>, targets: seq<CubeTargetState>): (r: seq<bool>)
    ensures |r| == |stepped|
  {
    seq(|stepped|, j requires 0 <= j < |stepped| => j < |targets| && TargetSettled(engine, stepped[j], targets[j]))
  }

  /** One frame of turning a face rotation towards its target. */
  function FaceTurn(engine: Engine, rotation: FaceRotationData): Turn
  {
    engine.rotateBodyTowards(rotation.current, engine.faceRotationQuant(rotation.target))
  }

  /** Which dice count towards `doneFacesRotQty`: those with a face rotation,
      while loading or animating. */
  ghost function FaceFlags(engine: Engine, rotations: seq<FaceRotationData>, n: nat, on: bool): (r: seq<bool>)
    ensures |r| == n
  {
    seq(n, j requires 0 <= j < n => on && j < |rotations| && FaceTurn(engine, rotations[j]).isDone)
  }

  /** The face rotations after turning those of the first `n` dice. */
  function FacesTurned(engine: Engine, rotations: seq<FaceRotationData>, n: nat, on: bool): (r: seq<FaceRotationData>)
    ensures |r| == |rotations|
  {
    seq(|rotations|, j requires 0 <= j < |rotations| =>
      if on && j < n then rotations[j].(current := FaceTurn(engine, rotations[j]).quant) else rotations[j])
  }

  /** Some die among the first `n` with a loading spin and a plan comes back
      to its start orientation. */
  ghost predicate StartReached(engine: Engine, spins: seq<Quat>, plans: seq<RollReadyState>, n: nat)
  {
    exists j :: 0 <= j < n && j < |spins| && j < |plans| && engine.loadingStep(spins[j], plans[j].angleVelocity).isStartPosition
  }

  /** The loading spins after the first `n` dice: once one returns to its
      start all are reset to no rotation, otherwise each advances a step. */
  ghost function LoadingAfter(engine: Engine, spins: seq<Quat>, plans: seq<RollReadyState>, n: nat): (r: seq<Quat>)
    ensures |r| == |spins|
  {
    if StartReached(engine, spins, plans, n) then seq(|spins|, _ => Identity) else
    seq(|spins|, j requires 0 <= j < |spins| =>
      if j < n && j < |plans| then engine.loadingStep(spins[j], plans[j].angleVelocity).quant else spins[j])
  }

  /** The staging targets are gone at the end of the frame: there were none,
      or every one of them was reached. */
  ghost predicate TargetsClear(engine: Engine, stepped: seq<BodyState>, targets: seq<CubeTargetState>)
  {
    targets == [] ||
    (|targets| <= |stepped| && forall j :: 0 <= j < |targets| ==> TargetSettled(engine, stepped[j], targets[j]))
  }

  lemma TargetFlagsCount(engine: Engine, stepped: seq<BodyState>, targets: seq<CubeTargetState>)
    ensures Count(TargetFlags(engine, stepped, targets)) == |targets|
      <==> |targets| <= |stepped| && forall j :: 0 <= j < |targets| ==> TargetSettled(engine, stepped[j], targets[j])
  {
    var flags := TargetFlags(engine, stepped, targets);
    CountReaches(flags, |targets|);
    if |targets| <= |stepped| {
      assert forall j :: 0 <= j < |targets| ==> (flags[j] <==> TargetSettled(engine, stepped[j], targets[j]));
    }
  }

  lemma FaceFlagsCount(engine: Engine, rotations: seq<FaceRotationData>, n: nat)
    ensures Count(FaceFlags(engine, rotations, n, true)) == |rotations|
      <==> |rotations| <= n && forall j :: 0 <= j < |rotations| ==> FaceTurn(engine, rotations[j]).isDone
  {
    var flags := FaceFlags(engine, rotations, n, true);
    CountReaches(flags, |rotations|);
    if |rotations| <= n {
      assert forall j :: 0 <= j < |rotations| ==> (flags[j] <==> FaceTurn(engine, rotations[j]).isDone);
    }
  }

  /** One staged die in the loop of `#animate`: move it towards its target
      and turn it to the target orientation; report whether it had already
      arrived. */
  method StageDie(engine: Engine, body: BodyState, target: CubeTargetState) returns (newBody: BodyState, settled: bool)
    requires Sound(engine)
    ensures newBody == StagedBody(engine, body, target)
    ensures settled <==> TargetSettled(engine, body, target)
  {
    var dist := engine.length(Sub(target.position, body.position));
    var move := MoveBodyTowards(body.position, target.position, dist, defaultMoveStep, defaultMinDelta);
    newBody := body.(position := move.vector);
    var turn := engine.rotateBodyTowards(newBody.quaternion, target.rotate);
    newBody := newBody.(quaternion := turn.quant);
    settled := move.isDone && turn.isDone;
  }

  /** One die's loading spin in the loop of `#animate`: until some spin is
      back at its start, advance this one; when it arrives, reset them all. */
  method SpinDie(engine: Engine, spins: seq<Quat>, plans: seq<RollReadyState>, i: nat,
                 current: seq<Quat>, started: bool)
    returns (next: seq<Quat>, nowStarted: bool)
    requires started <==> StartReached(engine, spins, plans, i)
    requires current == LoadingAfter(engine, spins, plans, i)
    ensures nowStarted <==> StartReached(engine, spins, plans, i + 1)
    ensures next == LoadingAfter(engine, spins, plans, i + 1)
  {
    LoadingStep(engine, spins, plans, i);
    next, nowStarted := current, started;
    if !started && i < |current| && i < |plans| {
      var spin := engine.loadingStep(current[i], plans[i].angleVelocity);
      next := current[i := spin.quant];
      if spin.isStartPosition {
        nowStarted := true;
        next := seq(|current|, _ => Identity);
      }
    }
  }

  /** One die's face rotation in the loop of `#animate`: while loading or
      animating, turn it one frame towards its target; report whether it was
      already there. */
  method TurnFace(engine: Engine, rotations: seq<FaceRotationData>, i: nat, on: bool,
                  current: seq<FaceRotationData>)
    returns (next: seq<FaceRotationData>, turned: bool)
    requires current == FacesTurned(engine, rotations, i, on)
    ensures next == FacesTurned(engine, rotations, i + 1, on)
    ensures turned <==> on && i < |rotations| && FaceTurn(engine, rotations[i]).isDone
  {
    next, turned := current, false;
    if on && i < |current| {
      var rotation := current[i];
      var turn := engine.rotateBodyTowards(rotation.current, engine.faceRotationQuant(rotation.target));
      turned := turn.isDone;
      next := current[i := rotation.(current := turn.quant)];
    }
  }

  /** The loop of `#animate` over the dice, on this frame's stepped bodies:
      move and turn each staged die towards its target, advance the loading
      spins until one returns to its start, and turn the face rotations while
      loading or animating; count the dice that arrived and the face
      rotations that are done. */
  method StepFrame(engine: Engine, cubes: seq<Cube>, stepped: seq<BodyState>, targets: seq<CubeTargetState>,
                   spins: seq<Quat>, plans: seq<RollReadyState>, rotations: seq<FaceRotationData>, on: bool)
    returns (newCubes: seq<Cube>, newSpins: seq<Quat>, newRotations: seq<FaceRotationData>,
             doneStatesQty: nat, doneFacesRotQty: nat, isLoadingStart: bool)
    requires Sound(engine) && |stepped| == |cubes|
    ensures |newCubes| == |cubes|
    ensures forall i :: 0 <= i < |cubes| ==> newCubes[i] == cubes[i].(body := FrameBody(engine, stepped, targets, i))
    ensures doneStatesQty == Count(TargetFlags(engine, stepped, targets))
    ensures doneFacesRotQty == Count(FaceFlags(engine, rotations, |cubes|, on))
    ensures isLoadingStart <==> StartReached(engine, spins, plans, |cubes|)
    ensures newSpins == LoadingAfter(engine, spins, plans, |cubes|)
    ensures newRotations == FacesTurned(engine, rotations, |cubes|, on)
  {
    var n := |cubes|;
    ghost var targetFlags := TargetFlags(engine, stepped, targets);
    ghost var faceFlags := FaceFlags(engine, rotations, n, on);
    newCubes, newSpins, newRotations := cubes, spins, rotations;
    doneStatesQty, doneFacesRotQty, isLoadingStart := 0, 0, false;
    for i := 0 to n
      invariant |newCubes| == n
      invariant forall j :: 0 <= j < n ==>
        newCubes[j] == if j < i then cubes[j].(body := FrameBody(engine, stepped, targets, j)) else cubes[j]
      invariant doneStatesQty == Count(targetFlags[..i])
      invariant doneFacesRotQty == Count(faceFlags[..i])
      invariant isLoadingStart <==> StartReached(engine, spins, plans, i)
      invariant newSpins == LoadingAfter(engine, spins, plans, i)
      invariant newRotations == FacesTurned(engine, rotations, i, on)
    {
      CountStep(targetFlags, i);
      CountStep(faceFlags, i);
      var body := stepped[i];
      if i < |targets| {
        var settled;
        body, settled := StageDie(engine, body, targets[i]);
        if settled {
          doneStatesQty := doneStatesQty + 1;
        }
      }
      newCubes := newCubes[i := newCubes[i].(body := body)];

      newSpins, isLoadingStart := SpinDie(engine, spins, plans, i, newSpins, isLoadingStart);
      var turned;
      newRotations, turned := TurnFace(engine, rotations, i, on, newRotations);
      if turned {
        doneFacesRotQty := doneFacesRotQty + 1;
      }
    }
    assert targetFlags[..n] == targetFlags;
    assert faceFlags[..n] == faceFlags;
  }

  /** How the loading spins and the start flag move from die `i` to die
      `i + 1`. */
  lemma LoadingStep(engine: Engine, spins: seq<Quat>, plans: seq<RollReadyState>, i: nat)
    ensures StartReached(engine, spins, plans, i) ==>
      StartReached(engine, spins, plans, i + 1) && LoadingAfter(engine, spins, plans, i + 1) == LoadingAfter(engine, spins, plans, i)
    ensures !StartReached(engine, spins, plans, i) && i < |spins| && i < |plans| ==>
      var spin := engine.loadingStep(LoadingAfter(engine, spins, plans, i)[i], plans[i].angleVelocity);
      && spin == engine.loadingStep(spins[i], plans[i].angleVelocity)
      && (StartReached(engine, spins, plans, i + 1) <==> spin.isStartPosition)
      && (!spin.isStartPosition ==>
            LoadingAfter(engine, spins, plans, i + 1) == LoadingAfter(engine, spins, plans, i)[i := spin.quant])
    ensures !StartReached(engine, spins, plans, i) && !(i < |spins| && i < |plans|) ==>
      !StartReached(engine, spins, plans, i + 1) && LoadingAfter(engine, spins, plans, i + 1) == LoadingAfter(engine, spins, plans, i)
  {
    if StartReached(engine, spins, plans, i) {
      var j :| 0 <= j < i && j < |spins| && j < |plans| && engine.loadingStep(spins[j], plans[j].angleVelocity).isStartPosition;
      assert 0 <= j < i + 1;
    } else if i < |spins| && i < |plans| {
      if engine.loadingStep(spins[i], plans[i].angleVelocity).isStartPosition {
        assert StartReached(engine, spins, plans, i + 1);
      }
    }
  }

  /** The orchestrator. `camera` is the scene's camera; `nextCubeId` and
      `nextWorkerId` hand out identities to new dice and workers.
      `liveWorkers` are the workers started and not terminated, `posted`
      the plans each worker was sent. */
  class SceneProvider {
    var data: ProviderData
    var cubes: seq<Cube>
    var gravity: Vec3
    var targetStates: seq<CubeTargetState>
    var rollReadyStates: seq<RollReadyState>
    var loadingMeshesStates: seq<Quat>
    var facesRotationData: seq<FaceRotationData>
    var worker: Option<WorkerId>
    var restChecker: Rest.RestChecker?
    var rollCalc: nat
    const camera: Camera
    var nextCubeId: nat
    var nextWorkerId: nat
    ghost var liveWorkers: set<WorkerId>
    ghost var posted: map<WorkerId, seq<RollReadyState>>

    /** Identities are handed out once, and the rest checker is consistent. */
    ghost predicate Tracked()
      reads this, restChecker
    {
      && FreshIds(cubes, nextCubeId)
      && (forall w :: w in liveWorkers ==> w < nextWorkerId)
      && (restChecker != null ==> restChecker.Valid())
    }

    /** One die, one throw plan and one plan posted to the current worker per
      value of the roster. */
    ghost predicate Synced()
      reads this
    {
      && |cubes| == |data.targetValues|
      && |rollReadyStates| == |cubes|
      && worker.Some? && worker.value in liveWorkers && worker.value in posted
      && posted[worker.value] == rollReadyStates
    }

    ghost predicate Valid()
      reads this, restChecker
    {
      Tracked() && Synced()
    }

    /** The current worker is the only one running. */
    ghost predicate SingleWorker()
      reads this
    {
      worker.Some? && liveWorkers == {worker.value}
    }

    /** The effect of a resync: the rebuilt roster, fresh staging targets, the
      new plans, and a new worker posted those plans in place of the old one,
      which is terminated. */
    twostate predicate Resynced(plans: seq<RollReadyState>)
      reads this
    {
      && cubes == ResyncedCubes(old(cubes), |data.targetValues|, old(nextCubeId))
      && nextCubeId == IdsAfterResync(|old(cubes)|, |data.targetValues|, old(nextCubeId))
      && targetStates == StagingTargets(|data.targetValues|)
      && rollReadyStates == plans
      && worker == Some(old(nextWorkerId)) && nextWorkerId == old(nextWorkerId) + 1
      && liveWorkers == (if old(worker).Some? then old(liveWorkers) - {old(worker).value} else old(liveWorkers))
                        + {old(nextWorkerId)}
      && posted == old(posted)[old(nextWorkerId) := plans]
    }

    /** No resync happened. */
    twostate predicate RosterUnchanged()
      reads this
    {
      && cubes == old(cubes) && nextCubeId == old(nextCubeId)
      && targetStates == old(targetStates) && rollReadyStates == old(rollReadyStates)
      && worker == old(worker) && nextWorkerId == old(nextWorkerId)
      && liveWorkers == old(liveWorkers) && posted == old(posted)
    }

    /** The constructor: publish the initial data with the given roster,
      build a weightless scene with one die per value, resync, which stages
      the dice and starts the first worker, and run the first frame. */
    constructor (targetValues: seq<FaceIndex>, plans: seq<RollReadyState>, fovRange: FovRange, engine: Engine)
      requires |plans| == |targetValues| && Sound(engine)
      ensures Valid() && SingleWorker()
      ensures data == initialSceneProviderData.(targetValues := targetValues)
      ensures gravity == Zero
      ensures var stepped := engine.worldStep(Zero, LayoutBodies(|targetValues|));
        var staging := StagingTargets(|targetValues|);
        && |cubes| == |targetValues|
        && (forall i :: 0 <= i < |cubes| ==> cubes[i] == Cube(i, FrameBody(engine, stepped, staging, i)))
        && targetStates == if TargetsClear(engine, stepped, staging) then [] else staging
      ensures rollReadyStates == plans
      ensures loadingMeshesStates == [] && facesRotationData == [] && restChecker == null && rollCalc == 0
      ensures worker == Some(0) && posted == map[0 := plans]
      ensures camera.fov == fovRange.max
    {
      data := initialSceneProviderData.(targetValues := targetValues);
      var scene := CreateScene(|targetValues|);
      cubes := NewCubes(scene.cubes, 0);
      nextCubeId := |scene.cubes|;
      gravity := scene.gravity;
      targetStates := [];
      rollReadyStates := [];
      loadingMeshesStates := [];
      facesRotationData := [];
      worker := None;
      restChecker := null;
      rollCalc := 0;
      camera := new Camera(fovRange.max);
      nextWorkerId := 0;
      liveWorkers := {};
      posted := map[];
      new;
      assert Bodies(cubes) == LayoutBodies(|targetValues|);
      Boot(plans, fovRange, engine);
    }

    /** The constructor once the weightless scene is built: resync, which
      stages the dice and starts the first worker, then the first frame. */
    method Boot(plans: seq<RollReadyState>, fovRange: FovRange, engine: Engine)
      requires Sound(engine) && |plans| == |data.targetValues| && |cubes| == |data.targetValues|
      requires FreshIds(cubes, nextCubeId) && worker == None && liveWorkers == {} && nextWorkerId == 0
      requires posted == map[] && !data.isLoading && !data.isAnimation && restChecker == null
      requires loadingMeshesStates == [] && facesRotationData == [] && camera.fov == fovRange.max
      modifies this, camera
      ensures Valid() && SingleWorker() && camera.fov == fovRange.max
      ensures var stepped := engine.worldStep(gravity, Bodies(old(cubes)));
        var staging := StagingTargets(|cubes|);
        && |cubes| == |old(cubes)|
        && (forall i :: 0 <= i < |cubes| ==> cubes[i] == old(cubes[i]).(body := FrameBody(engine, stepped, staging, i)))
        && targetStates == if TargetsClear(engine, stepped, staging) then [] else staging
      ensures data == old(data) && gravity == old(gravity) && rollCalc == old(rollCalc) && rollReadyStates == plans
      ensures loadingMeshesStates == [] && facesRotationData == [] && restChecker == null
      ensures worker == Some(0) && posted == map[0 := plans]
    {
      ResyncSameCountKeepsAll(cubes, nextCubeId);
      SyncTargetValuesWithScene(plans);
      ConfigFrame(engine, fovRange);
    }

    /** A frame of `#animate` in CONFIG with no loading spins or face
      rotations and no rest checker: the dice move one step towards their
      staging targets, the targets go once all are reached, and nothing else
      changes; the field of view stays at its maximum. */
    method ConfigFrame(engine: Engine, fovRange: FovRange)
      requires Valid() && Sound(engine)
      requires !data.isLoading && !data.isAnimation && restChecker == null
      requires loadingMeshesStates == [] && facesRotationData == [] && camera.fov == fovRange.max
      modifies this, camera
      ensures Valid() && camera.fov == fovRange.max
      ensures cubes == old(FrameCubes(engine))
      ensures targetStates == if old(TargetsClear(engine, SteppedBodies(engine), targetStates)) then [] else old(targetStates)
      ensures data == old(data) && gravity == old(gravity) && rollCalc == old(rollCalc)
      ensures loadingMeshesStates == [] && facesRotationData == [] && restChecker == null
      ensures rollReadyStates == old(rollReadyStates) && nextCubeId == old(nextCubeId)
      ensures worker == old(worker) && nextWorkerId == old(nextWorkerId)
      ensures liveWorkers == old(liveWorkers) && posted == old(posted)
    {
      Animate(engine, fovRange);
    }

    /** `#syncTargetValuesWithScene`: rebuild the roster to the length of
      `data.targetValues` (keeping shared slots, dropping trailing dice,
      appending new ones), stage every die, take the new throw plans, and
      replace the worker by one that is posted exactly those plans. */
    method SyncTargetValuesWithScene(plans: seq<RollReadyState>)
      requires |plans| == |data.targetValues|
      requires FreshIds(cubes, nextCubeId) && forall w :: w in liveWorkers ==> w < nextWorkerId
      modifies this`cubes, this`nextCubeId, this`targetStates, this`rollReadyStates,
               this`worker, this`nextWorkerId, this`liveWorkers, this`posted
      ensures Resynced(plans) && Synced()
      ensures FreshIds(cubes, nextCubeId) && forall w :: w in liveWorkers ==> w < nextWorkerId
      ensures old(liveWorkers) == {} || old(SingleWorker()) ==> SingleWorker()
    {
      var newCubes, newTargetStates, newRollReadyStates, nextId :=
        RebuildRoster(cubes, |data.targetValues|, nextCubeId, plans);
      ResyncKeepsIdsFresh(cubes, |data.targetValues|, nextCubeId);
      cubes := newCubes;
      nextCubeId := nextId;

      ReplaceWorker(newRollReadyStates);
      targetStates := newTargetStates;
      rollReadyStates := newRollReadyStates;
    }

    /** Terminate the current worker, if any, and start a new one that is
      posted `plans`. */
    method ReplaceWorker(plans: seq<RollReadyState>)
      requires forall w :: w in liveWorkers ==> w < nextWorkerId
      modifies this`worker, this`nextWorkerId, this`liveWorkers, this`posted
      ensures worker == Some(old(nextWorkerId)) && nextWorkerId == old(nextWorkerId) + 1
      ensures liveWorkers == (if old(worker).Some? then old(liveWorkers) - {old(worker).value} else old(liveWorkers))
                             + {old(nextWorkerId)}
      ensures posted == old(posted)[old(nextWorkerId) := plans]
      ensures forall w :: w in liveWorkers ==> w < nextWorkerId
      ensures old(liveWorkers) == {} || old(SingleWorker()) ==> SingleWorker()
    {
      if worker.Some? {
        liveWorkers := liveWorkers - {worker.value};
      }
      var newWorker := nextWorkerId;
      nextWorkerId := nextWorkerId + 1;
      worker := Some(newWorker);
      liveWorkers := liveWorkers + {newWorker};
      posted := posted[newWorker := plans];
    }

    /** `#syncFacesRotationData`: once the pre-solve result is in and matches
      the roster, recompute the face rotations; otherwise keep them. */
    method SyncFacesRotationData()
      modifies this`facesRotationData
      ensures facesRotationData ==
        if 0 < |data.facesData| && |data.facesData| == |data.targetValues|
        then FacesRotation(data.facesData, data.targetValues)
        else old(facesRotationData)
    {
      if 0 < |data.facesData| && |data.facesData| == |data.targetValues| {
        facesRotationData := FacesRotation(data.facesData, data.targetValues);
      }
    }

    /** `setData`: merge the update into the published data, then resync the
      roster and recompute the face rotations when the update calls for it.
      `plans` stands for the throw plans `genRollReadyState` draws during a
      resync. */
    method SetData(value: DataUpdate, plans: seq<RollReadyState>)
      requires Tracked()
      requires ResyncTriggered(data, value) ==> |plans| == |Merge(data, value).targetValues|
      requires !ResyncTriggered(data, value) ==> Synced()
      modifies this`data, this`facesRotationData, this`cubes, this`nextCubeId, this`targetStates,
               this`rollReadyStates, this`worker, this`nextWorkerId, this`liveWorkers, this`posted
      ensures Valid()
      ensures data == Merge(old(data), value)
      ensures ResyncTriggered(old(data), value) ==> Resynced(plans)
      ensures !ResyncTriggered(old(data), value) ==> RosterUnchanged()
      ensures facesRotationData ==
        if FacesOrTargetsUpdated(old(data), value) && 0 < |data.facesData| && |data.facesData| == |data.targetValues|
        then FacesRotation(data.facesData, data.targetValues)
        else old(facesRotationData)
      ensures old(SingleWorker()) ==> SingleWorker()
    {
      var targetValuesUpdatedLength := ResyncTriggered(data, value);
      var facesOrTargetsUpdated := FacesOrTargetsUpdated(data, value);
      data := Merge(data, value);
      SyncIfTriggered(targetValuesUpdatedLength, plans);
      SyncFacesIfUpdated(facesOrTargetsUpdated);
    }

    /** The last step of `setData`: recompute the face rotations when the
      update changed the pre-solve result or the roster. */
    method SyncFacesIfUpdated(updated: bool)
      modifies this`facesRotationData
      ensures facesRotationData ==
        if updated && 0 < |data.facesData| && |data.facesData| == |data.targetValues|
        then FacesRotation(data.facesData, data.targetValues)
        else old(facesRotationData)
    {
      if updated {
        SyncFacesRotationData();
      }
    }

    /** The resync step of `setData`: resync when the update called for it,
      else leave the roster and the worker alone. */
    method SyncIfTriggered(triggered: bool, plans: seq<RollReadyState>)
      requires Tracked()
      requires triggered ==> |plans| == |data.targetValues|
      requires !triggered ==> Synced()
      modifies this`cubes, this`nextCubeId, this`targetStates, this`rollReadyStates,
               this`worker, this`nextWorkerId, this`liveWorkers, this`posted
      ensures Valid()
      ensures triggered ==> Resynced(plans)
      ensures !triggered ==> RosterUnchanged()
      ensures old(SingleWorker()) ==> SingleWorker()
    {
      if triggered {
        SyncTargetValuesWithScene(plans);
      }
    }

    /** `setData` as written: the update is merged in and published first;
      a resync that grows the roster then throws at the first new die (see
      `RebuildRosterAsWritten`), and the exception leaves the roster, the
      staging targets, the plans, the worker and the face rotations as they
      were. `threw` reports the exception. Without growth it is `SetData`. */
    method SetDataAsWritten(value: DataUpdate, plans: seq<RollReadyState>) returns (threw: bool)
      requires Tracked()
      requires ResyncTriggered(data, value) ==> |plans| == |Merge(data, value).targetValues|
      requires !ResyncTriggered(data, value) ==> Synced()
      modifies this`data, this`facesRotationData, this`cubes, this`nextCubeId, this`targetStates,
               this`rollReadyStates, this`worker, this`nextWorkerId, this`liveWorkers, this`posted
      ensures data == Merge(old(data), value)
      ensures threw <==> ResyncTriggered(old(data), value) && |data.targetValues| > |old(cubes)|
      ensures threw ==> RosterUnchanged() && facesRotationData == old(facesRotationData)
                        && |cubes| < |data.targetValues|
      ensures !threw ==> Valid()
      ensures !threw && ResyncTriggered(old(data), value) ==> Resynced(plans)
      ensures !threw && !ResyncTriggered(old(data), value) ==> RosterUnchanged()
    {
      var targetValuesUpdatedLength := ResyncTriggered(data, value);
      var facesOrTargetsUpdated := FacesOrTargetsUpdated(data, value);
      data := Merge(data, value);
      threw := false;
      if targetValuesUpdatedLength {
        var outcome := RebuildRosterAsWritten(cubes, |data.targetValues|, nextCubeId);
        if outcome.Aborted? {
          threw := true;
          return;
        }
        SyncTargetValuesWithScene(plans);
      }
      if facesOrTargetsUpdated {
        SyncFacesRotationData();
      }
    }

    /** The message handler of a worker that is still running: its result
      becomes the published pre-solve result. */
    method DeliverFacesData(from: WorkerId, facesData: seq<FaceIndexData>)
      requires Valid() && from in liveWorkers
      modifies this`data, this`facesRotationData, this`cubes, this`nextCubeId, this`targetStates,
               this`rollReadyStates, this`worker, this`nextWorkerId, this`liveWorkers, this`posted
      ensures Valid() && RosterUnchanged()
      ensures data == old(data).(facesData := facesData)
      ensures facesRotationData ==
        if facesData != old(data.facesData) && 0 < |facesData| && |facesData| == |data.targetValues|
        then FacesRotation(facesData, data.targetValues)
        else old(facesRotationData)
    {
      SetData(NoUpdate.(facesData := Some(facesData)), []);
    }

    /** `start()`: one unrotated loading spin per die, one staging target per
      plan in that plan's orientation, then enter LOADING. */
    method Start()
      requires Valid()
      modifies this`data, this`facesRotationData, this`cubes, this`nextCubeId, this`targetStates,
               this`rollReadyStates, this`worker, this`nextWorkerId, this`liveWorkers, this`posted,
               this`loadingMeshesStates
      ensures Valid()
      ensures loadingMeshesStates == seq(|cubes|, _ => Identity)
      ensures targetStates == StartTargets(rollReadyStates)
      ensures data == old(data).(isLoading := true)
      ensures facesRotationData == old(facesRotationData)
      ensures cubes == old(cubes) && rollReadyStates == old(rollReadyStates)
      ensures worker == old(worker) && liveWorkers == old(liveWorkers) && posted == old(posted)
    {
      loadingMeshesStates := seq(|cubes|, _ => Identity);
      targetStates := StartTargets(rollReadyStates);
      SetData(NoUpdate.(isLoading := Some(true)), []);
    }

    /** `#makeRoll`: leave LOADING for ANIMATION, drop the staging and
      loading state and the published pre-solve result, then throw. */
    method MakeRoll()
      requires Valid()
      modifies this`data, this`facesRotationData, this`cubes, this`nextCubeId, this`targetStates,
               this`rollReadyStates, this`worker, this`nextWorkerId, this`liveWorkers, this`posted,
               this`loadingMeshesStates, this`restChecker, this`gravity
      ensures Valid() && fresh(restChecker) && restChecker.State() == Rest.Fresh
      ensures loadingMeshesStates == [] && targetStates == []
      ensures data == old(data).(isLoading := false, isAnimation := true, facesData := [])
      ensures gravity == activeGravity && cubes == ThrowAll(old(cubes), rollReadyStates)
      ensures facesRotationData == old(facesRotationData) && rollReadyStates == old(rollReadyStates)
      ensures nextCubeId == old(nextCubeId) && worker == old(worker) && liveWorkers == old(liveWorkers)
      ensures nextWorkerId == old(nextWorkerId) && posted == old(posted)
    {
      loadingMeshesStates := [];
      targetStates := [];
      SetData(NoUpdate.(isLoading := Some(false), isAnimation := Some(true), facesData := Some([])), []);
      ThrowDice();
    }

    /** The throw of `#makeRoll`: arm a fresh rest checker, switch gravity on
      and give every die the velocities and orientation of its plan. */
    method ThrowDice()
      requires FreshIds(cubes, nextCubeId) && |rollReadyStates| == |cubes|
      modifies this`restChecker, this`gravity, this`cubes
      ensures fresh(restChecker) && restChecker.Valid() && restChecker.State() == Rest.Fresh
      ensures gravity == activeGravity && FreshIds(cubes, nextCubeId)
      ensures cubes == ThrowAll(old(cubes), rollReadyStates)
    {
      restChecker := new Rest.RestChecker();
      gravity := activeGravity;
      var thrown := ApplyRollReadyStates(Bodies(cubes), rollReadyStates);
      var before := cubes;
      cubes := seq(|before|, i requires 0 <= i < |before| => before[i].(body := thrown[i]));
    }

    /** The first part of `reset()`: drop the per-roll arrays and the rest
      checker, and forget the worker without terminating it. */
    method ClearRollState()
      modifies this`targetStates, this`rollReadyStates, this`loadingMeshesStates, this`facesRotationData,
               this`restChecker, this`worker
      ensures targetStates == [] && rollReadyStates == [] && loadingMeshesStates == [] && facesRotationData == []
      ensures restChecker == null && worker == None
    {
      targetStates := [];
      rollReadyStates := [];
      loadingMeshesStates := [];
      facesRotationData := [];
      restChecker := null;
      worker := None;
    }

    /** The second part of `reset()`: a weightless scene of fresh dice at
      their layout slots, one per value of the roster. */
    method RebuildScene()
      modifies this`cubes, this`nextCubeId, this`gravity
      ensures FreshIds(cubes, nextCubeId) && gravity == Zero
      ensures |cubes| == |data.targetValues| && nextCubeId == old(nextCubeId) + |cubes|
      ensures forall i :: 0 <= i < |cubes| ==>
        cubes[i] == Cube(old(nextCubeId) + i, RestingBodyAt(CalcCubePosition(|cubes|, i)))
    {
      var scene := CreateScene(|data.targetValues|);
      cubes := NewCubes(scene.cubes, nextCubeId);
      nextCubeId := nextCubeId + |scene.cubes|;
      gravity := scene.gravity;
    }

    /** The bodies `world.step(1/60)` yields this frame. */
    ghost function SteppedBodies(engine: Engine): (r: seq<BodyState>)
      reads this
      requires Sound(engine)
      ensures |r| == |cubes|
    {
      engine.worldStep(gravity, Bodies(cubes))
    }

    /** The dice after this frame's world step and staging moves. */
    ghost function FrameCubes(engine: Engine): (r: seq<Cube>)
      reads this
      requires Sound(engine)
      ensures |r| == |cubes|
      ensures forall i :: 0 <= i < |cubes| ==>
        r[i] == cubes[i].(body := FrameBody(engine, SteppedBodies(engine), targetStates, i))
    {
      var before, stepped, targets := cubes, SteppedBodies(engine), targetStates;
      seq(|before|, i requires 0 <= i < |before| =>
        before[i].(body := FrameBody(engine, stepped, targets, i)))
    }

    /** `#makeRoll` is due at the end of this frame: the orchestrator is
      loading, every die has a face rotation and all of them are done, one
      loading spin is back at its start, and no staging target is left. */
    ghost predicate RollDue(engine: Engine)
      reads this
      requires Sound(engine)
    {
      && data.isLoading
      && 0 < |facesRotationData| <= |cubes|
      && (forall j :: 0 <= j < |facesRotationData| ==> FaceTurn(engine, facesRotationData[j]).isDone)
      && StartReached(engine, loadingMeshesStates, rollReadyStates, |cubes|)
      && TargetsClear(engine, SteppedBodies(engine), targetStates)
    }

    /** The first part of `#animate`: count the frame if a roll is running,
      step the world, run the per-die loop, and drop the staging targets once
      all of them are reached. */
    method StepScene(engine: Engine) returns (doneFacesRotQty: nat, isLoadingStart: bool)
      requires Valid() && Sound(engine)
      modifies this`rollCalc, this`cubes, this`loadingMeshesStates, this`facesRotationData, this`targetStates
      ensures Valid()
      ensures rollCalc == old(rollCalc) + (if data.isAnimation then 1 else 0)
      ensures cubes == old(FrameCubes(engine))
      ensures loadingMeshesStates == LoadingAfter(engine, old(loadingMeshesStates), rollReadyStates, |cubes|)
      ensures facesRotationData == FacesTurned(engine, old(facesRotationData), |cubes|, data.isLoading || data.isAnimation)
      ensures targetStates == if old(TargetsClear(engine, SteppedBodies(engine), targetStates)) then [] else old(targetStates)
      ensures isLoadingStart <==> old(StartReached(engine, loadingMeshesStates, rollReadyStates, |cubes|))
      ensures data.isLoading ==>
        (doneFacesRotQty == |facesRotationData| <==>
           |facesRotationData| <= |cubes| &&
           forall j :: 0 <= j < |facesRotationData| ==> FaceTurn(engine, old(facesRotationData)[j]).isDone)
      ensures (data.isLoading && 0 < |facesRotationData| && doneFacesRotQty == |facesRotationData|
               && isLoadingStart && |targetStates| == 0) <==> old(RollDue(engine))
    {
      if data.isAnimation {
        rollCalc := rollCalc + 1;
      }
      var doneStatesQty;
      doneStatesQty, doneFacesRotQty, isLoadingStart := StepDice(engine);
      if |targetStates| > 0 && doneStatesQty == |targetStates| {
        targetStates := [];
      }
    }

    /** The loop of `#animate` on this frame's stepped bodies, with the two
      counts it keeps told apart: all staging targets reached, and all face
      rotations done while loading. */
    method StepDice(engine: Engine) returns (doneStatesQty: nat, doneFacesRotQty: nat, isLoadingStart: bool)
      requires Sound(engine) && FreshIds(cubes, nextCubeId)
      modifies this`cubes, this`loadingMeshesStates, this`facesRotationData
      ensures FreshIds(cubes, nextCubeId) && cubes == old(FrameCubes(engine))
      ensures loadingMeshesStates == LoadingAfter(engine, old(loadingMeshesStates), rollReadyStates, |cubes|)
      ensures facesRotationData == FacesTurned(engine, old(facesRotationData), |cubes|, data.isLoading || data.isAnimation)
      ensures doneStatesQty == |targetStates| <==>
        |targetStates| <= |cubes| &&
        forall j :: 0 <= j < |targetStates| ==> TargetSettled(engine, old(SteppedBodies(engine))[j], targetStates[j])
      ensures isLoadingStart <==> old(StartReached(engine, loadingMeshesStates, rollReadyStates, |cubes|))
      ensures data.isLoading ==>
        (doneFacesRotQty == |facesRotationData| <==>
           |facesRotationData| <= |cubes| &&
           forall j :: 0 <= j < |facesRotationData| ==> FaceTurn(engine, old(facesRotationData)[j]).isDone)
    {
      var stepped := engine.worldStep(gravity, Bodies(cubes));
      var on := data.isLoading || data.isAnimation;
      var newCubes, newSpins, newRotations;
      newCubes, newSpins, newRotations, doneStatesQty, doneFacesRotQty, isLoadingStart :=
        StepFrame(engine, cubes, stepped, targetStates, loadingMeshesStates, rollReadyStates, facesRotationData, on);
      TargetFlagsCount(engine, stepped, targetStates);
      if data.isLoading {
        FaceFlagsCount(engine, facesRotationData, |cubes|);
      }
      SameIdsKeepFresh(cubes, newCubes, nextCubeId);
      cubes, loadingMeshesStates, facesRotationData := newCubes, newSpins, newRotations;
    }

    /** The last part of `#animate`: while a roll is running, ask the rest
      checker, and publish `isFinal` when it answers true. */
    method RaiseFinalIfRested(engine: Engine)
      requires Valid()
      modifies this`data, this`facesRotationData, this`cubes, this`nextCubeId, this`targetStates,
               this`rollReadyStates, this`worker, this`nextWorkerId, this`liveWorkers, this`posted,
               restChecker
      ensures Valid() && RosterUnchanged() && facesRotationData == old(facesRotationData)
      ensures old(data.isAnimation) && restChecker != null ==>
        restChecker.State() == Rest.Step(old(restChecker.State()), Speeds(engine, cubes)).0
      ensures !old(data.isAnimation) && restChecker != null ==> restChecker.State() == old(restChecker.State())
      ensures data == if old(data.isAnimation) && restChecker != null && Rest.Step(old(restChecker.State()), Speeds(engine, cubes)).1
                      then old(data).(isFinal := true) else old(data)
    {
      if data.isAnimation && restChecker != null {
        var rested := restChecker.Check(Speeds(engine, cubes));
        if rested {
          SetData(NoUpdate.(isFinal := Some(true)), []);
        }
      }
    }

    /** The gate of `#animate` while loading: throw once every face rotation
      is done, a loading spin is back at its start and the staging targets
      are gone. */
    method RollIfDue(doneFacesRotQty: nat, isLoadingStart: bool)
      requires Valid()
      modifies this`data, this`facesRotationData, this`cubes, this`nextCubeId, this`targetStates,
               this`rollReadyStates, this`worker, this`nextWorkerId, this`liveWorkers, this`posted,
               this`loadingMeshesStates, this`restChecker, this`gravity
      ensures Valid()
      ensures rollReadyStates == old(rollReadyStates) && nextCubeId == old(nextCubeId)
      ensures worker == old(worker) && nextWorkerId == old(nextWorkerId)
      ensures liveWorkers == old(liveWorkers) && posted == old(posted)
      ensures facesRotationData == old(facesRotationData)
      ensures var due := 0 < |old(facesRotationData)| && doneFacesRotQty == |old(facesRotationData)|
                         && isLoadingStart && |old(targetStates)| == 0;
        && (due ==>
              && cubes == ThrowAll(old(cubes), rollReadyStates)
              && data == old(data).(isLoading := false, isAnimation := true, facesData := [])
              && targetStates == [] && loadingMeshesStates == [] && gravity == activeGravity
              && fresh(restChecker) && restChecker.State() == Rest.Fresh)
        && (!due ==>
              && cubes == old(cubes) && targetStates == old(targetStates)
              && loadingMeshesStates == old(loadingMeshesStates)
              && data == old(data) && gravity == old(gravity) && restChecker == old(restChecker))
    {
      var isFacesTargetPos := |facesRotationData| > 0 && doneFacesRotQty == |facesRotationData|;
      if isFacesTargetPos && isLoadingStart && |targetStates| == 0 {
        MakeRoll();
      }
    }

    /** `#animate` up to the field of view: step the scene and throw when
      the roll is due. */
    method AdvanceFrame(engine: Engine)
      requires Valid() && Sound(engine)
      modifies this`data, this`facesRotationData, this`cubes, this`nextCubeId, this`targetStates,
               this`rollReadyStates, this`worker, this`nextWorkerId, this`liveWorkers, this`posted,
               this`loadingMeshesStates, this`restChecker, this`gravity, this`rollCalc
      ensures Valid()
      ensures rollCalc == old(rollCalc) + (if old(data.isAnimation) then 1 else 0)
      ensures rollReadyStates == old(rollReadyStates) && nextCubeId == old(nextCubeId)
      ensures worker == old(worker) && nextWorkerId == old(nextWorkerId)
      ensures liveWorkers == old(liveWorkers) && posted == old(posted)
      ensures facesRotationData == old(FacesTurned(engine, facesRotationData, |cubes|, data.isLoading || data.isAnimation))
      ensures targetStates == if old(TargetsClear(engine, SteppedBodies(engine), targetStates)) then [] else old(targetStates)
      ensures old(RollDue(engine)) ==>
        && cubes == ThrowAll(old(FrameCubes(engine)), rollReadyStates)
        && data == old(data).(isLoading := false, isAnimation := true, facesData := [])
        && loadingMeshesStates == [] && gravity == activeGravity
        && fresh(restChecker) && restChecker.State() == Rest.Fresh
      ensures !old(RollDue(engine)) ==>
        && cubes == old(FrameCubes(engine))
        && loadingMeshesStates == old(LoadingAfter(engine, loadingMeshesStates, rollReadyStates, |cubes|))
        && data == old(data) && gravity == old(gravity) && restChecker == old(restChecker)
    {
      var doneFacesRotQty, isLoadingStart := StepScene(engine);
      if data.isLoading {
        RollIfDue(doneFacesRotQty, isLoadingStart);
      }
    }

    /** `#animate`, one frame without rendering: step the scene, throw when
      the roll is due, move the field of view, and raise `isFinal` when the
      rest checker of a running roll answers true. */
    method Animate(engine: Engine, fovRange: FovRange)
      requires Valid() && Sound(engine)
      modifies this, camera, restChecker
      ensures Valid()
      ensures rollCalc == old(rollCalc) + (if old(data.isAnimation) then 1 else 0)
      ensures rollReadyStates == old(rollReadyStates) && nextCubeId == old(nextCubeId)
      ensures worker == old(worker) && nextWorkerId == old(nextWorkerId)
      ensures liveWorkers == old(liveWorkers) && posted == old(posted)
      ensures camera.fov == if old(data.isLoading) then FovStep(old(camera.fov), fovRange.min, -1)
                            else FovStep(old(camera.fov), fovRange.max, 1)
      ensures facesRotationData == old(FacesTurned(engine, facesRotationData, |cubes|, data.isLoading || data.isAnimation))
      ensures targetStates == if old(TargetsClear(engine, SteppedBodies(engine), targetStates)) then [] else old(targetStates)
      ensures old(RollDue(engine)) ==>
        && cubes == ThrowAll(old(FrameCubes(engine)), rollReadyStates)
        && data == old(data).(isLoading := false, isAnimation := true, facesData := [])
        && loadingMeshesStates == [] && gravity == activeGravity
        && fresh(restChecker) && restChecker.State() == Rest.Step(Rest.Fresh, Speeds(engine, cubes)).0
      ensures !old(RollDue(engine)) ==>
        && cubes == old(FrameCubes(engine))
        && loadingMeshesStates == old(LoadingAfter(engine, loadingMeshesStates, rollReadyStates, |cubes|))
        && gravity == old(gravity) && restChecker == old(restChecker)
        && (old(data.isAnimation) && restChecker != null ==>
              restChecker.State() == Rest.Step(old(restChecker.State()), Speeds(engine, cubes)).0)
        && (!old(data.isAnimation) && restChecker != null ==> restChecker.State() == old(restChecker.State()))
        && data == if old(data.isAnimation) && restChecker != null
                      && Rest.Step(old(restChecker.State()), Speeds(engine, cubes)).1
                   then old(data).(isFinal := true) else old(data)
      ensures data.isFinal != old(data.isFinal) ==>
        && data.isFinal && old(data.isAnimation) && !old(RollDue(engine))
        && restChecker != null && restChecker.State().finalConfirmation >= restConfirmations
    {
      var loading := data.isLoading;
      AdvanceFrame(engine);
      CalcFov(camera, fovRange, if loading then -1 else 1);
      RaiseFinalIfRested(engine);
    }

    /** `reset()`: drop every per-roll array and the rest checker, forget the
      worker (it is not terminated), rebuild a weightless scene of fresh dice
      at their layout slots, and publish the initial flags with the same
      roster; the `isFinal: false` in that update forces a resync, which
      stages the dice with the new plans and starts a new worker. */
    method Reset(plans: seq<RollReadyState>)
      requires Valid() && |plans| == |data.targetValues|
      modifies this
      ensures Valid()
      ensures data == initialSceneProviderData.(targetValues := old(data.targetValues))
      ensures loadingMeshesStates == [] && facesRotationData == [] && restChecker == null
      ensures gravity == Zero
      ensures |cubes| == |data.targetValues|
      ensures forall i :: 0 <= i < |cubes| ==>
        cubes[i] == Cube(old(nextCubeId) + i, RestingBodyAt(CalcCubePosition(|cubes|, i)))
      ensures targetStates == StagingTargets(|cubes|) && rollReadyStates == plans
      ensures worker == Some(old(nextWorkerId)) && posted == old(posted)[old(nextWorkerId) := plans]
      ensures liveWorkers == old(liveWorkers) + {old(nextWorkerId)}
      ensures rollCalc == old(rollCalc)
    {
      ClearRollState();
      RebuildScene();
      ghost var freshCubes := cubes;
      ResyncSameCountKeepsAll(freshCubes, nextCubeId);
      assert FreshIds(cubes, nextCubeId);
      var update := Overwrite(initialSceneProviderData.(targetValues := data.targetValues));
      assert ResyncTriggered(data, update);
      SetData(update, plans);
      assert cubes == freshCubes;
    }
  }
}
