/** The pure helpers and the small loops of src/app/lib/utils.ts: the dice
    layout, the capped move-toward interpolator, the field-of-view step, the
    array comparison, building a scene and applying the throw plans.
    The rest detector of the same file is module Rest. */
module Utils {
  import opened Types
  import opened Constants

  /** Position of layout slot `cubeIndex` in a row of `cubesQty` dice. */
  function CalcCubePosition(cubesQty: int, cubeIndex: int): (p: Vec3)
    ensures p.y == cubeDefaultY && p.z == 0.0
  {
    Vec3((cubeIndex as real - (cubesQty as real - 1.0) / 2.0) * cubeOffset, cubeDefaultY, 0.0)
  }

  /** Neighbouring slots are exactly `cubeOffset` apart along x. */
  lemma LayoutSpacing(cubesQty: int, i: int)
    ensures CalcCubePosition(cubesQty, i + 1).x - CalcCubePosition(cubesQty, i).x == cubeOffset
  {
    var here := i as real - (cubesQty as real - 1.0) / 2.0;
    assert CalcCubePosition(cubesQty, i + 1).x == (here + 1.0) * cubeOffset;
    assert CalcCubePosition(cubesQty, i).x == here * cubeOffset;
    assert (here + 1.0) * cubeOffset == here * cubeOffset + cubeOffset;
  }

  /** The row is centred: slot i mirrors slot n - 1 - i about x = 0. */
  lemma LayoutSymmetric(cubesQty: int, i: int)
    ensures CalcCubePosition(cubesQty, i).x == -CalcCubePosition(cubesQty, cubesQty - 1 - i).x
  {
  }

  datatype MoveResult = MoveResult(vector: Vec3, isDone: bool)

  const defaultMoveStep: real := 0.05
  const defaultMinDelta: real := 0.01

  /** One frame of moving `pos` towards `target`: snap when closer than
      `minDelta`, otherwise advance along the straight line by at most
      `step`. `dist` is the Euclidean distance `|target - pos|`, which the
      source reads from `Vec3.length()`. */
  function MoveBodyTowards(pos: Vec3, target: Vec3, dist: real, step: real, minDelta: real): (r: MoveResult)
    requires dist >= 0.0 && dist * dist == SqNorm(Sub(target, pos))
    requires minDelta > 0.0
    ensures r.isDone <==> dist < minDelta
    ensures r.isDone ==> r.vector == target
  {
    var delta := Sub(target, pos);
    if dist < minDelta then
      MoveResult(target, true)
    else
      var dir := Scale(delta, 1.0 / dist);
      var offset := Scale(dir, Min(step, dist));
      MoveResult(Add(pos, offset), false)
  }

  lemma ScaleSqNorm(v: Vec3, k: real)
    ensures SqNorm(Scale(v, k)) == k * k * SqNorm(v)
  {
    calc {
      SqNorm(Scale(v, k));
      (v.x * k) * (v.x * k) + (v.y * k) * (v.y * k) + (v.z * k) * (v.z * k);
      { assert (v.x * k) * (v.x * k) == k * k * (v.x * v.x);
        assert (v.y * k) * (v.y * k) == k * k * (v.y * v.y);
        assert (v.z * k) * (v.z * k) == k * k * (v.z * v.z); }
      k * k * (v.x * v.x) + k * k * (v.y * v.y) + k * k * (v.z * v.z);
      k * k * SqNorm(v);
    }
  }

  lemma ScaleScale(v: Vec3, a: real, b: real)
    ensures Scale(Scale(v, a), b) == Scale(v, a * b)
  {
    assert v.x * a * b == v.x * (a * b);
    assert v.y * a * b == v.y * (a * b);
    assert v.z * a * b == v.z * (a * b);
  }

  /** Moving `pos` by `k` times `delta = target - pos` leaves `(1 - k)` times
      `delta` still to go. */
  lemma RemainingAfterFraction(pos: Vec3, target: Vec3, k: real)
    ensures Sub(Add(pos, Scale(Sub(target, pos), k)), pos) == Scale(Sub(target, pos), k)
    ensures Sub(target, Add(pos, Scale(Sub(target, pos), k))) == Scale(Sub(target, pos), 1.0 - k)
  {
    var d := Sub(target, pos);
    assert d.x - d.x * k == d.x * (1.0 - k);
    assert d.y - d.y * k == d.y * (1.0 - k);
    assert d.z - d.z * k == d.z * (1.0 - k);
  }

  lemma FractionOfDistance(dist: real, m: real)
    requires dist > 0.0
    ensures (1.0 / dist) * m == m / dist
    ensures (m / dist) * (m / dist) * (dist * dist) == m * m
    ensures (1.0 - m / dist) * (1.0 - m / dist) * (dist * dist) == (dist - m) * (dist - m)
  {
    var k := m / dist;
    assert k * dist == m;
    assert (1.0 - k) * dist == dist - m;
    assert k * k * (dist * dist) == (k * dist) * (k * dist);
    assert (1.0 - k) * (1.0 - k) * (dist * dist) == ((1.0 - k) * dist) * ((1.0 - k) * dist);
  }

  /** Away from the target the body moves along the line to the target by
      min(step, dist), so the remaining distance is dist - min(step, dist):
      it shrinks by the step and never overshoots. */
  lemma MoveNeverOvershoots(pos: Vec3, target: Vec3, dist: real, step: real, minDelta: real)
    requires dist >= 0.0 && dist * dist == SqNorm(Sub(target, pos))
    requires minDelta > 0.0 && dist >= minDelta && step > 0.0
    ensures var r := MoveBodyTowards(pos, target, dist, step, minDelta);
      && !r.isDone
      && Sub(r.vector, pos) == Scale(Sub(target, pos), Min(step, dist) / dist)
      && SqNorm(Sub(r.vector, pos)) == Min(step, dist) * Min(step, dist)
      && SqNorm(Sub(target, r.vector)) == (dist - Min(step, dist)) * (dist - Min(step, dist))
      && 0.0 <= dist - Min(step, dist) < dist
  {
    var m := Min(step, dist);
    DirectionTimesStep(Sub(target, pos), dist, m);
    MoveByFraction(pos, target, dist, m);
  }

  /** The unit direction scaled by `m` is the difference scaled by `m / dist`. */
  lemma DirectionTimesStep(d: Vec3, dist: real, m: real)
    requires dist > 0.0
    ensures Scale(Scale(d, 1.0 / dist), m) == Scale(d, m / dist)
  {
    ScaleScale(d, 1.0 / dist, m);
    assert (1.0 / dist) * m == m / dist;
  }

  /** The squared distances after moving `m` of the way along a segment of
      length `dist`. */
  lemma MoveByFraction(pos: Vec3, target: Vec3, dist: real, m: real)
    requires dist > 0.0 && dist * dist == SqNorm(Sub(target, pos))
    ensures var v := Add(pos, Scale(Sub(target, pos), m / dist));
      && Sub(v, pos) == Scale(Sub(target, pos), m / dist)
      && SqNorm(Sub(v, pos)) == m * m
      && SqNorm(Sub(target, v)) == (dist - m) * (dist - m)
  {
    var delta := Sub(target, pos);
    var k := m / dist;
    FractionOfDistance(dist, m);
    RemainingAfterFraction(pos, target, k);
    ScaleSqNorm(delta, k);
    ScaleSqNorm(delta, 1.0 - k);
  }

  /** When the step covers the remaining distance the body lands exactly on
      the target, although `isDone` is only reported on the next frame. */
  lemma MoveLandsWhenStepCovers(pos: Vec3, target: Vec3, dist: real, step: real, minDelta: real)
    requires dist >= 0.0 && dist * dist == SqNorm(Sub(target, pos))
    requires minDelta > 0.0 && dist >= minDelta && step >= dist
    ensures MoveBodyTowards(pos, target, dist, step, minDelta) == MoveResult(target, false)
  {
    var delta := Sub(target, pos);
    ScaleScale(delta, 1.0 / dist, dist);
    assert (1.0 / dist) * dist == 1.0;
    assert Scale(delta, 1.0) == delta;
  }

  /** At the target the move is a no-op that reports completion, so feeding
      a finished result back in is idempotent. */
  lemma MoveAtTargetIsNoop(target: Vec3, step: real, minDelta: real)
    requires minDelta > 0.0
    ensures Sub(target, target) == Zero
    ensures MoveBodyTowards(target, target, 0.0, step, minDelta) == MoveResult(target, true)
  {
  }

  const fovStep: real := 0.025

  function Sign(x: real): int
  {
    if x > 0.0 then 1 else if x < 0.0 then -1 else 0
  }

  /** How far `fov` still has to travel to reach `finValue` in direction
      `sign`; negative when it is already past it. */
  function Gap(fov: real, finValue: real, sign: int): real
  {
    if sign == 1 then finValue - fov else fov - finValue
  }

  /** One frame of `calcFov`: move the field of view by `sign * 0.025`
      towards `finValue`, snapping onto it once the step reaches or passes it. */
  function FovStep(fov: real, finValue: real, sign: int): (r: real)
    requires sign == 1 || sign == -1
    ensures r == finValue || r == fov + sign as real * fovStep
    ensures Gap(r, finValue, sign) >= 0.0
    ensures Gap(fov, finValue, sign) <= fovStep ==> r == finValue
    ensures Gap(fov, finValue, sign) > fovStep ==> Gap(r, finValue, sign) == Gap(fov, finValue, sign) - fovStep
  {
    if fov == finValue then fov
    else
      var next := fov + sign as real * fovStep;
      if Sign(finValue - next) != sign then finValue else next
  }

  /** The field of view after `frames` frames with the same direction. */
  function FovAfter(fov: real, finValue: real, sign: int, frames: nat): real
    requires sign == 1 || sign == -1
    decreases frames
  {
    if frames == 0 then fov else FovAfter(FovStep(fov, finValue, sign), finValue, sign, frames - 1)
  }

  /** The field of view reaches its bound once the frames' total step covers
      the gap (one frame when it starts past the bound), and stays there. */
  lemma {:induction false} FovConverges(fov: real, finValue: real, sign: int, frames: nat)
    requires sign == 1 || sign == -1
    requires frames as real * fovStep >= Gap(fov, finValue, sign)
    requires frames > 0 || fov == finValue
    ensures FovAfter(fov, finValue, sign, frames) == finValue
    decreases frames
  {
    if frames > 0 {
      var next := FovStep(fov, finValue, sign);
      if next == finValue {
        FovStaysAtTarget(finValue, sign, frames - 1);
      } else {
        assert (frames - 1) as real * fovStep >= Gap(next, finValue, sign);
        FovConverges(next, finValue, sign, frames - 1);
      }
    }
  }

  lemma {:induction false} FovStaysAtTarget(finValue: real, sign: int, frames: nat)
    requires sign == 1 || sign == -1
    ensures FovAfter(finValue, finValue, sign, frames) == finValue
    decreases frames
  {
    if frames > 0 {
      FovStaysAtTarget(finValue, sign, frames - 1);
    }
  }

  /** The camera, reduced to the one field the core changes. */
  class Camera {
    var fov: real

    constructor (fov: real)
      ensures this.fov == fov
    {
      this.fov := fov;
    }
  }

  /** The field-of-view bounds `getFovRange` derives from the window. */
  datatype FovRange = FovRange(max: real, min: real)

  /** `calcFov`: widen (sign 1) or narrow (sign -1) the camera's field of
      view by one step towards the corresponding bound. */
  method CalcFov(camera: Camera, range: FovRange, sign: int)
    requires sign == 1 || sign == -1
    modifies camera
    ensures camera.fov == FovStep(old(camera.fov), if sign > 0 then range.max else range.min, sign)
  {
    var finValue := if sign > 0 then range.max else range.min;
    if camera.fov != finValue {
      camera.fov := camera.fov + sign as real * fovStep;
      if Sign(finValue - camera.fov) != sign {
        camera.fov := finValue;
      }
    }
  }

  /** `compareArrays`: same length and the same JSON text, which for these
      plain records means element-wise equality. */
  function CompareArrays<T(==)>(a: seq<T>, b: seq<T>): (r: bool)
    ensures r <==> a == b
  {
    |a| == |b| && forall i :: 0 <= i < |a| ==> a[i] == b[i]
  }

  /** A physics world: its gravity and one body per die, in slot order. The
      tray's static body is not part of the model. */
  datatype SceneData = SceneData(gravity: Vec3, cubes: seq<BodyState>)

  /** The bodies of a freshly built scene: one at rest in each layout slot. */
  function LayoutBodies(cubesQty: nat): (r: seq<BodyState>)
    ensures |r| == cubesQty
    ensures forall i :: 0 <= i < cubesQty ==> r[i] == RestingBodyAt(CalcCubePosition(cubesQty, i))
  {
    seq(cubesQty, i requires 0 <= i < cubesQty => RestingBodyAt(CalcCubePosition(cubesQty, i)))
  }

  /** `createScene`: a weightless world with one fresh body per layout slot. */
  method CreateScene(cubesQty: nat) returns (scene: SceneData)
    ensures scene.gravity == Zero
    ensures |scene.cubes| == cubesQty
    ensures forall i :: 0 <= i < cubesQty ==>
      scene.cubes[i] == RestingBodyAt(CalcCubePosition(cubesQty, i))
  {
    var cubes: seq<BodyState> := [];
    for i := 0 to cubesQty
      invariant |cubes| == i
      invariant forall j :: 0 <= j < i ==> cubes[j] == RestingBodyAt(CalcCubePosition(cubesQty, j))
    {
      cubes := cubes + [RestingBodyAt(CalcCubePosition(cubesQty, i))];
    }
    scene := SceneData(Zero, cubes);
  }

  /** A body after `applyRollReadyStates` with its plan. */
  function Thrown(body: BodyState, plan: RollReadyState): BodyState
  {
    body.(quaternion := plan.rotate, angularVelocity := plan.angleVelocity,
          velocity := Add(body.velocity, plan.velocity))
  }

  /** Every body thrown by the plan of its slot. */
  function ThrowBodies(bodies: seq<BodyState>, plans: seq<RollReadyState>): (r: seq<BodyState>)
    requires |plans| >= |bodies|
    ensures |r| == |bodies|
    ensures forall i :: 0 <= i < |bodies| ==> r[i] == Thrown(bodies[i], plans[i])
  {
    seq(|bodies|, i requires 0 <= i < |bodies| => Thrown(bodies[i], plans[i]))
  }

  /** `applyRollReadyStates`: give each body its plan's orientation and spin
      and apply the plan's impulse at the body's centre. With unit mass the
      impulse adds to the velocity and, acting at the centre, adds no spin. */
  method ApplyRollReadyStates(cubes: seq<BodyState>, states: seq<RollReadyState>) returns (r: seq<BodyState>)
    requires |states| >= |cubes|
    ensures |r| == |cubes|
    ensures forall i :: 0 <= i < |cubes| ==>
      && r[i].position == cubes[i].position
      && r[i].quaternion == states[i].rotate
      && r[i].angularVelocity == states[i].angleVelocity
      && r[i].velocity == Add(cubes[i].velocity, states[i].velocity)
    ensures r == ThrowBodies(cubes, states)
  {
    r := cubes;
    for i := 0 to |cubes|
      invariant |r| == |cubes|
      invariant forall j :: i <= j < |cubes| ==> r[j] == cubes[j]
      invariant forall j :: 0 <= j < i ==>
        && r[j].position == cubes[j].position
        && r[j].quaternion == states[j].rotate
        && r[j].angularVelocity == states[j].angleVelocity
        && r[j].velocity == Add(cubes[j].velocity, states[j].velocity)
    {
      var body := r[i].(quaternion := states[i].rotate, angularVelocity := states[i].angleVelocity);
      body := body.(velocity := Add(body.velocity, Scale(states[i].velocity, 1.0)));
      r := r[i := body];
    }
  }
}
