/** The headless pre-solve of src/app/simulation.ts: throw the dice in a
    weightless-then-heavy world, step it until the rest detector fires, and
    report, from left to right on the table, which face each die shows. */
module Simulation {
  import opened Types
  import opened Constants
  import opened Sorting
  import opened Utils
  import Rest

  /** `v.applyQuaternion(q)`: rotate `v` by `q` (v + w t + q x t with t = 2 q x v). */
  function ApplyQuaternion(v: Vec3, q: Quat): Vec3
  {
    var tx := 2.0 * (q.y * v.z - q.z * v.y);
    var ty := 2.0 * (q.z * v.x - q.x * v.z);
    var tz := 2.0 * (q.x * v.y - q.y * v.x);
    Vec3(v.x + q.w * tx + q.y * tz - q.z * ty,
         v.y + q.w * ty + q.z * tx - q.x * tz,
         v.z + q.w * tz + q.x * ty - q.y * tx)
  }


  /** How far face `f`'s normal points up, the dot product of its rotated
      normal with (0, 1, 0). */
  function UpDot(q: Quat, f: FaceIndex): real
  {
    Dot(ApplyQuaternion(FaceVector(f), q), Vec3(0.0, 1.0, 0.0))
  }

  /** `f` is the top face of a die with orientation `q`: its normal points
      up at least as much as any other face's, and strictly more than every
      earlier face's (the scan keeps the first of equal maxima). */
  ghost predicate IsTopFace(q: Quat, f: FaceIndex)
  {
    && (forall g: FaceIndex :: UpDot(q, g) <= UpDot(q, f))
    && (forall g: FaceIndex :: g < f ==> UpDot(q, g) < UpDot(q, f))
  }

  /** `getTopFaceIndex`: scan faces 1..6 keeping the largest up-dot. */
  method GetTopFaceIndex(q: Quat) returns (topFace: FaceIndex)
    ensures IsTopFace(q, topFace)
  {
    var upDot := (g: FaceIndex) => UpDot(q, g);
    topFace := ScanFaces(upDot);
    assert forall g: FaceIndex :: upDot(g) == UpDot(q, g);
  }

  /** The loop of `getTopFaceIndex`, for any scoring `dot` of the faces; the
      running maximum starts below every real (`-Infinity`, here `None`). */
  method ScanFaces(dot: FaceIndex -> real) returns (topFace: FaceIndex)
    ensures forall g: FaceIndex :: dot(g) <= dot(topFace)
    ensures forall g: FaceIndex :: g < topFace ==> dot(g) < dot(topFace)
  {
    var maxDot: Option<real> := None;
    topFace := 1;
    var face := 1;
    while face <= 6
      invariant 1 <= face <= 7
      invariant maxDot.None? <==> face == 1
      invariant maxDot.Some? ==> topFace < face && maxDot.value == dot(topFace)
      invariant forall g: FaceIndex :: g < face ==> dot(g) <= dot(topFace)
      invariant forall g: FaceIndex :: g < topFace ==> dot(g) < dot(topFace)
    {
      var d := dot(face);
      if maxDot.None? || d > maxDot.value {
        maxDot := Some(d);
        topFace := face;
      }
      face := face + 1;
    }
  }

  /** Only one face can be on top. */
  lemma TopFaceIsUnique(q: Quat, f: FaceIndex, g: FaceIndex)
    requires IsTopFace(q, f) && IsTopFace(q, g)
    ensures f == g
  {
    var hf := UpDot(q, f);
    var hg := UpDot(q, g);
    assert hf == hg;
  }

  lemma ApplyIdentity(v: Vec3)
    ensures ApplyQuaternion(v, Identity) == v
  {
  }

  /** Unrotated, face 1 points straight up, face 6 straight down and the
      other four sideways. */
  lemma UpDotIdentity(f: FaceIndex)
    ensures UpDot(Identity, f) == if f == 1 then 1.0 else if f == 6 then -1.0 else 0.0
  {
    ApplyIdentity(FaceVector(f));
    FaceVectorHeight(f);
  }

  lemma FaceVectorHeight(f: FaceIndex)
    ensures FaceVector(f).y == if f == 1 then 1.0 else if f == 6 then -1.0 else 0.0
  {
  }

  /** An unrotated die shows face 1, whose normal is (0, 1, 0). */
  lemma IdentityShowsFaceOne(f: FaceIndex)
    ensures IsTopFace(Identity, f) <==> f == 1
  {
    forall g: FaceIndex
      ensures UpDot(Identity, g) == if g == 1 then 1.0 else if g == 6 then -1.0 else 0.0
    {
      UpDotIdentity(g);
    }
    FaceOneOnTop(Identity, f);
  }

  /** Whenever face 1 points up and every other face sideways or down, the
      top face is 1 and no other. */
  lemma FaceOneOnTop(q: Quat, f: FaceIndex)
    requires forall g: FaceIndex :: UpDot(q, g) == if g == 1 then 1.0 else if g == 6 then -1.0 else 0.0
    ensures IsTopFace(q, f) <==> f == 1
  {
    var top: FaceIndex := 1;
    assert UpDot(q, top) == 1.0;
  }

  /** Where a die came to rest, compared by x and then by y. */
  function RestKey(body: BodyState): Key
  {
    (body.position.x, body.position.y)
  }

  /** The `map` after the sort: each die in the sorted order, tagged with
      its top face and its original slot. */
  method TagTopFaces(cubes: seq<BodyState>, order: seq<nat>) returns (faces: seq<FaceIndexData>)
    requires InRange(order, |cubes|)
    ensures |faces| == |order|
    ensures forall k :: 0 <= k < |order| ==>
      faces[k].index == order[k] && IsTopFace(cubes[order[k]].quaternion, faces[k].face)
  {
    faces := [];
    for k := 0 to |order|
      invariant |faces| == k
      invariant forall j :: 0 <= j < k ==>
        faces[j].index == order[j] && IsTopFace(cubes[order[j]].quaternion, faces[j].face)
    {
      var face := GetTopFaceIndex(cubes[order[k]].quaternion);
      faces := faces + [FaceIndexData(face, order[k])];
    }
  }

  /** The world after `k` calls of `worldStep` from `start`; stepping moves
      the bodies and leaves the gravity as it is. */
  function Stepped(start: SceneData, worldStep: SceneData -> seq<BodyState>, k: nat): (r: SceneData)
    ensures r.gravity == start.gravity
    decreases k
  {
    if k == 0 then start
    else
      var before := Stepped(start, worldStep, k - 1);
      before.(cubes := worldStep(before))
  }

  /** An engine that keeps the number of bodies keeps it over any number
      of steps. */
  lemma {:induction false} SteppedKeepsCount(start: SceneData, worldStep: SceneData -> seq<BodyState>, k: nat)
    requires forall w: SceneData :: |worldStep(w)| == |w.cubes|
    ensures |Stepped(start, worldStep, k).cubes| == |start.cubes|
  {
    if k > 0 {
      SteppedKeepsCount(start, worldStep, k - 1);
    }
  }

  /** What the rest detector is fed for a world: per die, `length()` of its
      velocity plus `length()` of its angular velocity. */
  function BodySpeeds(cubes: seq<BodyState>, length: Vec3 -> real): seq<real>
  {
    seq(|cubes|, i requires 0 <= i < |cubes| => length(cubes[i].velocity) + length(cubes[i].angularVelocity))
  }

  /** The speeds the detector has been fed after `k` steps from `start`:
      entry `j` is read off the world after step `j + 1`. */
  function SpeedHistory(start: SceneData, worldStep: SceneData -> seq<BodyState>, length: Vec3 -> real, k: nat)
    : (r: seq<seq<real>>)
    ensures |r| == k
    decreases k
  {
    if k == 0 then []
    else SpeedHistory(start, worldStep, length, k - 1) + [BodySpeeds(Stepped(start, worldStep, k).cubes, length)]
  }

  /** The world right after the throw of `makeSimulation`: the layout of one
      resting body per plan, gravity on, each body thrown by its plan. */
  function ThrownStart(rollReadyStates: seq<RollReadyState>): (r: SceneData)
  {
    SceneData(activeGravity, ThrowBodies(LayoutBodies(|rollReadyStates|), rollReadyStates))
  }

  /** `makeSimulation`: build a world with one body per plan, switch on
      gravity, throw, and step until the rest detector fires; the result
      handed to the callback is returned. `worldStep` is one `world.step(1/60)`
      of the physics engine and `length` is `Vec3.length()`. `steps` counts
      the world steps taken. */
  method MakeSimulation(rollReadyStates: seq<RollReadyState>,
                        worldStep: SceneData -> seq<BodyState>, length: Vec3 -> real)
    returns (faces: seq<FaceIndexData>, scene: SceneData, steps: nat)
    requires forall w: SceneData :: |worldStep(w)| == |w.cubes|
    ensures scene.gravity == activeGravity
    ensures |scene.cubes| == |rollReadyStates|
    ensures scene == Stepped(ThrownStart(rollReadyStates), worldStep, steps)
    ensures 1 <= steps <= stepsConfirmations + restConfirmations - 1
    ensures var history := SpeedHistory(ThrownStart(rollReadyStates), worldStep, length, steps);
      && Rest.AnswersTrue(history)
      && forall k :: 1 <= k < steps ==> !Rest.AnswersTrue(history[..k])
    ensures |faces| == |rollReadyStates|
    ensures forall k :: 0 <= k < |faces| ==> faces[k].index == StableOrder(scene.cubes, RestKey)[k]
    ensures IsPermutation(seq(|faces|, k requires 0 <= k < |faces| => faces[k].index), |faces|)
    ensures forall k :: 0 <= k < |faces| ==>
      0 <= faces[k].index < |scene.cubes| && IsTopFace(scene.cubes[faces[k].index].quaternion, faces[k].face)
    ensures forall a, b :: 0 <= a < b < |faces| ==>
      0 <= faces[a].index < |scene.cubes| && 0 <= faces[b].index < |scene.cubes| &&
      var pa := scene.cubes[faces[a].index].position;
      var pb := scene.cubes[faces[b].index].position;
      pa.x < pb.x || (pa.x == pb.x && pa.y <= pb.y)
  {
    var created := CreateScene(|rollReadyStates|);
    scene := created.(gravity := activeGravity);
    var thrown := ApplyRollReadyStates(scene.cubes, rollReadyStates);
    scene := scene.(cubes := thrown);
    assert created.cubes == LayoutBodies(|rollReadyStates|);
    assert scene == ThrownStart(rollReadyStates);
    scene, steps := RunUntilRest(scene, worldStep, length);
    SteppedKeepsCount(ThrownStart(rollReadyStates), worldStep, steps);
    var order := StableOrder(scene.cubes, RestKey);
    faces := TagTopFaces(scene.cubes, order);
    SortedTagsAreOrdered(scene.cubes, faces);
  }

  /** One more step appends the speeds of the new world to the history, so
      the detector's counters and its answer for it follow from the counters
      before the step. */
  lemma HistoryGrows(start: SceneData, worldStep: SceneData -> seq<BodyState>, length: Vec3 -> real, k: nat)
    ensures SpeedHistory(start, worldStep, length, k + 1)[..k] == SpeedHistory(start, worldStep, length, k)
    ensures var h := SpeedHistory(start, worldStep, length, k + 1);
      var speeds := BodySpeeds(Stepped(start, worldStep, k + 1).cubes, length);
      && Rest.Run(h) == Rest.Step(Rest.Run(SpeedHistory(start, worldStep, length, k)), speeds).0
      && (Rest.AnswersTrue(h) <==> Rest.Step(Rest.Run(SpeedHistory(start, worldStep, length, k)), speeds).1)
  {
    var h := SpeedHistory(start, worldStep, length, k + 1);
    assert h[..k] == SpeedHistory(start, worldStep, length, k);
  }

  /** The `while (!isFinal) animate()` loop of `makeSimulation` from the
      thrown world `start`: step and check until the detector fires. It
      fires on the step it stops at and on no earlier one, and at the
      latest at the cap. The report `animate()` then hands to the callback
      is made once, from the world this returns. */
  method RunUntilRest(start: SceneData, worldStep: SceneData -> seq<BodyState>, length: Vec3 -> real)
    returns (scene: SceneData, steps: nat)
    ensures scene == Stepped(start, worldStep, steps)
    ensures 1 <= steps <= stepsConfirmations + restConfirmations - 1
    ensures var history := SpeedHistory(start, worldStep, length, steps);
      && Rest.AnswersTrue(history)
      && forall k :: 1 <= k < steps ==> !Rest.AnswersTrue(history[..k])
  {
    var isFinal := false;
    var checkRest := new Rest.RestChecker();
    scene := start;
    steps := 0;
    ghost var history: seq<seq<real>> := [];
    while !isFinal
      invariant checkRest.Valid() && checkRest.steps == steps
      invariant scene == Stepped(start, worldStep, steps)
      invariant history == SpeedHistory(start, worldStep, length, steps)
      invariant checkRest.State() == Rest.Run(history)
      invariant steps <= stepsConfirmations + restConfirmations - 1
      invariant !isFinal ==> steps < stepsConfirmations + restConfirmations - 1
      invariant isFinal ==> steps >= 1 && Rest.AnswersTrue(history)
      invariant forall k :: 1 <= k < steps ==> !Rest.AnswersTrue(history[..k])
      invariant !isFinal && steps >= 1 ==> !Rest.AnswersTrue(history)
      decreases stepsConfirmations + restConfirmations - 1 - steps
    {
      scene, isFinal := Animate(checkRest, scene, worldStep, length, start, steps);
      HistoryGrows(start, worldStep, length, steps);
      QuietPrefixesGrow(history, SpeedHistory(start, worldStep, length, steps + 1));
      history := SpeedHistory(start, worldStep, length, steps + 1);
      steps := steps + 1;
    }
  }

  /** The first `k` entries of the history of `n` steps are the history of
      the first `k` steps, so a prefix of the history is what the detector
      had been fed at that earlier step. */
  lemma {:induction false} HistoryPrefix(start: SceneData, worldStep: SceneData -> seq<BodyState>,
                                         length: Vec3 -> real, n: nat, k: nat)
    requires k <= n
    ensures SpeedHistory(start, worldStep, length, n)[..k] == SpeedHistory(start, worldStep, length, k)
    decreases n
  {
    if k < n {
      var h := SpeedHistory(start, worldStep, length, n);
      HistoryPrefix(start, worldStep, length, n - 1, k);
      HistoryGrows(start, worldStep, length, n - 1);
      assert h[..k] == h[..n - 1][..k];
    }
  }

  /** A history one call longer whose shorter prefixes all answered false
      still has no prefix that answered true before its last call. */
  lemma QuietPrefixesGrow(history: seq<seq<real>>, longer: seq<seq<real>>)
    requires |longer| == |history| + 1 && longer[..|history|] == history
    requires forall k :: 1 <= k < |history| ==> !Rest.AnswersTrue(history[..k])
    requires |history| >= 1 ==> !Rest.AnswersTrue(history)
    ensures forall k :: 1 <= k < |longer| ==> !Rest.AnswersTrue(longer[..k])
  {
    forall k | 1 <= k < |longer|
      ensures !Rest.AnswersTrue(longer[..k])
    {
      assert longer[..k] == history[..k];
    }
  }

  /** One call of the inner `animate()` up to the sort: step the world by
      `worldStep` and feed the detector the new speeds. The detector's state
      tracks the speed history of the `steps` steps so far; `rested` is its
      answer for the history one step longer, and it is always true at the
      cap. */
  method Animate(checkRest: Rest.RestChecker, scene: SceneData,
                 worldStep: SceneData -> seq<BodyState>, length: Vec3 -> real,
                 ghost start: SceneData, steps: nat)
    returns (next: SceneData, rested: bool)
    requires checkRest.Valid() && checkRest.steps == steps
    requires scene == Stepped(start, worldStep, steps)
    requires checkRest.State() == Rest.Run(SpeedHistory(start, worldStep, length, steps))
    modifies checkRest
    ensures checkRest.Valid() && checkRest.steps == steps + 1
    ensures next == Stepped(start, worldStep, steps + 1)
    ensures checkRest.State() == Rest.Run(SpeedHistory(start, worldStep, length, steps + 1))
    ensures rested <==> Rest.AnswersTrue(SpeedHistory(start, worldStep, length, steps + 1))
    ensures steps + 1 >= stepsConfirmations + restConfirmations - 1 ==> rested
  {
    next := scene.(cubes := worldStep(scene));
    var speeds := BodySpeeds(next.cubes, length);
    HistoryGrows(start, worldStep, length, steps);
    if steps + 1 >= stepsConfirmations + restConfirmations - 1 {
      Rest.CapForcesRest(checkRest.State(), speeds);
    }
    rested := checkRest.Check(speeds);
  }

  /** The tags follow the stable order: their slots are a permutation, the
      dice appear by resting x, then y, and dice resting at the same x and y
      keep their original order. */
  lemma SortedTagsAreOrdered(cubes: seq<BodyState>, faces: seq<FaceIndexData>)
    requires |faces| == |cubes|
    requires forall k :: 0 <= k < |faces| ==> faces[k].index == StableOrder(cubes, RestKey)[k]
    ensures IsPermutation(seq(|faces|, k requires 0 <= k < |faces| => faces[k].index), |faces|)
    ensures forall a, b :: 0 <= a < b < |faces| ==>
      0 <= faces[a].index < |cubes| && 0 <= faces[b].index < |cubes| &&
      var pa := cubes[faces[a].index].position;
      var pb := cubes[faces[b].index].position;
      pa.x < pb.x || (pa.x == pb.x && pa.y <= pb.y)
    ensures forall a, b | 0 <= a < b < |faces| && 0 <= faces[a].index < |cubes| && 0 <= faces[b].index < |cubes| ::
      RestKey(cubes[faces[a].index]) == RestKey(cubes[faces[b].index]) ==> faces[a].index < faces[b].index
  {
    var order := StableOrder(cubes, RestKey);
    var indices := seq(|faces|, k requires 0 <= k < |faces| => faces[k].index);
    assert indices == order;
    forall a, b | 0 <= a < b < |faces|
      ensures 0 <= faces[a].index < |cubes| && 0 <= faces[b].index < |cubes|
      ensures var pa := cubes[faces[a].index].position;
        var pb := cubes[faces[b].index].position;
        pa.x < pb.x || (pa.x == pb.x && pa.y <= pb.y)
    {
      assert Precedes(cubes, RestKey, order[a], order[b]);
    }
  }
}
