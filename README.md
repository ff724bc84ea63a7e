# target-dice-demo: the rigged roll, in Dafny

target-dice-demo throws up to six dice in a 3D tray so that they land on
values the user chose beforehand. The trick is a pre-solve. For every roster
of dice the orchestrator (`SceneProvider`) draws a throw plan per die:

- an impulse;
- a spin;
- a start orientation.

It hands those plans to a worker. The worker simulates the throw headless
(`makeSimulation`) and reports which face each die will show, ordered by
where the die comes to rest. The orchestrator turns each report into a
fixed "face rotation": the rotation that relabels the face the die will
show as the face the user wants. While the dice spin in the LOADING phase,
it turns every die's visual towards that rotation. Once all rotations are
done, a loading spin is back at its start and the staged dice have reached
their staging poses, it throws for real with the same plans (`#makeRoll`).
A rest detector (`getRestChecker`) then decides when the dice have
settled, and the orchestrator publishes `isFinal`.

The project models that core:

- `Types`: the value shapes and the few vector operations the core
  borrows.
- `Constants`: the face-normal table, the layout and counter constants,
  and the initial snapshot.
- `Sorting`: the stable sort (`toSorted`) as an explicit permutation.
- `Utils`:
  - the layout (`calcCubePosition`);
  - the per-frame move towards a staging target (`moveBodyTowards`);
  - the field-of-view easing (`calcFov`, on a `Camera` object);
  - `compareArrays`;
  - `createScene` and `applyRollReadyStates`, as loops.
- `Rest`: the rest detector, as a class whose two counters the checker
  updates in place.
- `Simulation`: `getTopFaceIndex` and `makeSimulation`.
- `Provider`: `SceneProvider` as a class. It covers:
  - `setData` and its two resync triggers;
  - the roster resync with worker replacement;
  - the face-rotation assignment;
  - `start`, `#makeRoll` and `reset`;
  - one frame of `#animate`. Its per-die loop is a heap-free method
    proved against specification functions of the state before the frame.
- `TutorialSlice`: the `markStatus` reducer, as a loop with `break` over
  the tutorial order.
- `UseTutorial`: `lastActiveStatus` and the `checkStatus` guard.
- `UseSceneProvider`: the hook.
  - Its stage derivation is a function.
  - Its state is a class:
    - the init guard, split at the `await`, so that a second effect run
      during the load cannot create a second provider;
    - the provider callback;
    - the forwarding actions.
- `SceneView`: the roster handlers (type a value, remove a die, add a
  die), and the rule that keeps the roster between one and six dice.

Dice are identified by ids handed out from a counter. A die is its body's
state; its mesh is created and removed with it. Workers are identified the
same way. The ghost fields `liveWorkers` (started and not terminated) and
`posted` (the plans each worker was sent) say which worker is running and
what it was asked.

The physics engine, the quaternion helpers and random draws are parameters
(see "Left out"). An `Engine` value bundles these operations:

- the world step;
- vector length;
- `rotateBodyTowards`;
- `getFaceRotationQuant`;
- `calcLoadingStep`.

`Sound(engine)` requires two things of it: the length's square is the
squared norm, and a world step keeps the number of bodies.

## Model

| member | source | states |
|---|---|---|
| Constants.FaceVectorIsUnitAxis | src/app/lib/constants.ts:4-11 | every face normal is a unit vector along one axis |
| Constants.FaceVectorsOpposite | src/app/lib/constants.ts:4-11 | faces `f` and `7 - f` have opposite normals |
| Constants.FaceVectorsDistinct | src/app/lib/constants.ts:4-11 | the six normals are pairwise distinct: two faces share a normal only if they are the same face |
| Constants.AxisFaceRoundTrip | src/app/lib/constants.ts:4-11 | reading a face back from its normal gives the face |
| Constants.CubeMaterialsArePermutation | src/app/lib/constants.ts:13-20 | the material order lists each of the six faces exactly once |
| Constants.InitialDataIsConfig | src/app/lib/constants.ts:31-37 | the initial snapshot has no roster, no results and every phase flag down |
| Constants.LayoutAndCounterConstants | src/app/lib/constants.ts:22-24 | the spacing is twice the die size, dice start above the floor, and the rest run is shorter than the step cap (lines 41-42) |
| Sorting.PrecedesIsStrictTotalOrder | src/app/simulation.ts:44-47 | comparing by key and then by original position is a strict total order, which is what makes `toSorted` stable |
| Sorting.StableOrder | src/app/simulation.ts:44-47 | the sort yields a permutation of the positions, ordered by key, ties in original order |
| Utils.CalcCubePosition | src/app/lib/utils.ts:44-46 | a layout slot is at the dice height on the middle line |
| Utils.LayoutSpacing | src/app/lib/utils.ts:44-46 | neighbouring slots are exactly `cubeOffset` apart |
| Utils.LayoutSymmetric | src/app/lib/utils.ts:44-46 | the layout is centred: slot `i` mirrors slot `n - 1 - i` |
| Utils.MoveBodyTowards | src/app/lib/utils.ts:313-333 | the move reports done exactly when the body is closer than `minDelta`, and then it sits on the target |
| Utils.MoveNeverOvershoots | src/app/lib/utils.ts:319-332 | away from the target, the body moves along the line to it by `min(step, dist)`, and the remaining distance drops by that much without passing the target |
| Utils.MoveLandsWhenStepCovers | src/app/lib/utils.ts:326-331 | when the step covers the distance, the body lands on the target but `isDone` waits for the next frame |
| Utils.MoveAtTargetIsNoop | src/app/lib/utils.ts:321-324 | a body already on its target stays there and reports done |
| Utils.FovStep | src/app/lib/utils.ts:483-493 | one frame moves the field of view by 0.025 towards the end value, or snaps to it, and never passes it |
| Utils.FovConverges | src/app/lib/utils.ts:483-493 | after enough frames the field of view equals the end value |
| Utils.FovStaysAtTarget | src/app/lib/utils.ts:486 | at the end value, further frames change nothing |
| Utils.CalcFov | src/app/lib/utils.ts:483-493 | the camera's field of view becomes one easing step towards the range's max (sign +1) or min (sign -1) |
| Utils.CompareArrays | src/app/lib/utils.ts:418-420 | true exactly when the two arrays are equal |
| Utils.CreateScene | src/app/lib/utils.ts:213-249 | a weightless world with `n` dice, die `i` at rest, unrotated, at layout slot `i` |
| Utils.ApplyRollReadyStates | src/app/lib/utils.ts:454-472 | each die keeps its position, takes its plan's orientation and spin, and gains its plan's impulse as velocity (unit mass, applied at the centre); the result is every body thrown by its slot's plan |
| Rest.Step | src/app/lib/utils.ts:431-451 | one call counts a step; a calm call or any call from the cap on extends the run, any other resets it; the answer is true exactly when the run has reached `restConfirmations` |
| Rest.StepKeepsReachable | src/app/lib/utils.ts:437-449 | the run never exceeds the call count, and from the cap on every call is in the run |
| Rest.CapForcesRest | src/app/lib/utils.ts:439-446 | once the calls reach `stepsConfirmations + restConfirmations - 1`, the checker answers true whatever the speeds |
| Rest.RunIsReachable | src/app/lib/utils.ts:429-451 | every sequence of calls from fresh counters counts its calls and stays reachable |
| Rest.CalmRunCountsEveryCall | src/app/lib/utils.ts:439-443 | in an all-calm sequence, every call extends the run |
| Rest.CalmRestsAtConfirmations | src/app/lib/utils.ts:439-446 | with calm dice, the checker answers true exactly from call `restConfirmations` on |
| Rest.NeverRestsEarly | src/app/lib/utils.ts:444-446 | the checker never answers true before call `restConfirmations` |
| Rest.RestsByCap | src/app/lib/utils.ts:439-446 | the checker answers true by call 549, so the simulation loop ends |
| Rest.RestChecker.constructor | src/app/lib/utils.ts:428-430 | a new checker starts with both counters at zero |
| Rest.RestChecker.Check | src/app/lib/utils.ts:431-451 | a call updates the counters in place and answers as `Step` does |
| Simulation.GetTopFaceIndex | src/app/simulation.ts:6-22 | the face returned has the highest normal after rotation, the first such face in table order |
| Simulation.ScanFaces | src/app/simulation.ts:11-19 | the strict `>` scan keeps the first maximum |
| Simulation.TopFaceIsUnique | src/app/simulation.ts:15-18 | the top face of a rotation is unique |
| Simulation.IdentityShowsFaceOne | src/app/simulation.ts:6-22 | an unrotated die shows face 1 |
| Simulation.FaceOneOnTop | src/app/simulation.ts:6-22 | any rotation that keeps face 1 up (and 6 down) shows face 1 |
| Simulation.TagTopFaces | src/app/simulation.ts:48-51 | each sorted entry carries its die's index and that die's top face |
| Simulation.MakeSimulation | src/app/simulation.ts:24-60 | the world it returns is `steps` engine steps from the layout of one resting die per plan, gravity on, each die thrown by its plan; the detector fed the speeds of every step answers true at step `steps` and at no earlier step, which is within the rest cap; one entry per die, a permutation of the dice, each with its top face, in the stable order of the resting positions (x, then y, then original slot) |
| Simulation.RunUntilRest | src/app/simulation.ts:33-59 | the loop stops at the first step whose speed history the detector answers true for, at the latest at the cap, with the world after that many engine steps |
| Simulation.Animate | src/app/simulation.ts:37-40 | one engine step, then one detector call on the new speeds: the detector's counters follow the history one step longer, its answer is that history's answer, and at the cap it is true |
| Simulation.HistoryPrefix | src/app/simulation.ts:37-40 | the first `k` entries of the speed history of `n` steps are the history of the first `k` steps |
| Simulation.SteppedKeepsCount | src/app/simulation.ts:38 | an engine step that keeps the number of bodies keeps it over any number of steps |
| Simulation.SortedTagsAreOrdered | src/app/simulation.ts:42-51 | the sorted tags are a permutation of the dice, ordered by x then y, and dice resting at the same spot keep their original order |
| Provider.ResyncTriggered | src/app/lib/SceneProvider.ts:178-181 | a resync is due exactly when the update sets `isFinal` to false or changes the roster's length |
| Provider.FacesOrTargetsUpdated | src/app/lib/SceneProvider.ts:182-187 | the face rotations are recomputed exactly when the merged update changes the results or the roster |
| Provider.SameLengthEditKeepsRoster | src/app/lib/SceneProvider.ts:178-187 | retyping one value never resyncs, and recomputes the rotations exactly when the value changes |
| Provider.Overwrite | src/app/lib/SceneProvider.ts:317-320 | an update naming every field replaces the whole snapshot |
| Provider.ResyncedCubes | src/app/lib/SceneProvider.ts:205-245 | the rebuilt roster has one die per value, keeps the shared slots' dice, and appends new unrotated dice with fresh ids |
| Provider.ResyncKeepsIdsFresh | src/app/lib/SceneProvider.ts:205-245 | after a resync, ids stay distinct and below the counter |
| Provider.ResyncDropsExactlyTrailing | src/app/lib/SceneProvider.ts:208-212 | an old die survives a resync exactly when its slot is still on the roster |
| Provider.ResyncSameCountKeepsAll | src/app/lib/SceneProvider.ts:214-223 | a resync to the same length keeps every die as it is |
| Provider.StagingTargets | src/app/lib/SceneProvider.ts:235-238 | one staging target per die, at the dice height in the default orientation |
| Provider.RebuildRoster | src/app/lib/SceneProvider.ts:199-245 | the loop builds the resynced roster, the staging targets and the plan list, and advances the id counter |
| Provider.RebuildRosterAsWritten | src/app/lib/SceneProvider.ts:212-233 | as written, the loop aborts exactly when the roster grows, holding just the old dice, fewer than the values; without growth it builds the intended roster |
| Provider.GrowthNeedsNewDie | src/app/lib/SceneProvider.ts:220-233 | on growth the intended roster's first appended slot holds a die that none of the old dice is, so the aborted roster falls short of it |
| Provider.StartTargets | src/app/lib/SceneProvider.ts:285-288 | one staging target per plan, in that plan's orientation, at the dice height |
| Provider.FacesRotation | src/app/lib/SceneProvider.ts:269-280 | one face rotation per result, each starting from no rotation |
| Provider.FacesRotationAssignsTargets | src/app/lib/SceneProvider.ts:272-278 | when the indices are a permutation, the die a result names gets the rotation from its settled face to the value in the result's slot |
| Provider.TargetFlagsCount | src/app/lib/SceneProvider.ts:144-149 | the arrived count equals the number of targets exactly when every staged die arrived |
| Provider.FaceFlagsCount | src/app/lib/SceneProvider.ts:151-154 | the done count equals the number of face rotations exactly when every rotation is done |
| Provider.StageDie | src/app/lib/SceneProvider.ts:94-110 | a staged die moves and turns one frame towards its target; it counts as arrived when it was within `minDelta` and turned already |
| Provider.SpinDie | src/app/lib/SceneProvider.ts:114-129 | loading spins advance die by die until one is back at its start, then all reset to no rotation |
| Provider.TurnFace | src/app/lib/SceneProvider.ts:130-141 | while loading or animating, a die's face rotation turns one frame towards its target |
| Provider.LoadingStep | src/app/lib/SceneProvider.ts:114-129 | how the start flag and the loading spins move from one die to the next |
| Provider.StepFrame | src/app/lib/SceneProvider.ts:87-142 | the per-die loop leaves each die at its frame body, the spins and rotations at their end-of-frame values, and the two counts and the start flag as specified |
| Provider.SceneProvider.constructor | src/app/lib/SceneProvider.ts:55-73 | the initial snapshot with the roster; a weightless layout of fresh dice, one per value, after the constructor's own first frame: each die's body is the world step followed by one staging move, and the staging targets are gone exactly when all were reached; the given plans posted to worker 0 and nothing else running; the view at its widest |
| Provider.SceneProvider.Boot | src/app/lib/SceneProvider.ts:68-72 | after the scene is built: the resync stages the dice and starts the one worker, then one frame moves each die from its built body |
| Provider.SceneProvider.ConfigFrame | src/app/lib/SceneProvider.ts:75-175 | a frame in CONFIG moves each die one staging step and drops the targets once all are reached; flags, gravity, spins, rotations, plans and worker are untouched, and the view stays at its widest |
| Provider.SceneProvider.SyncTargetValuesWithScene | src/app/lib/SceneProvider.ts:198-268 | the roster is resynced, staged, the plans taken, and a new worker posted exactly those plans replaces the old one |
| Provider.SceneProvider.ReplaceWorker | src/app/lib/SceneProvider.ts:247-264 | the old worker is terminated and a fresh one started with the plans; a single running worker stays single |
| Provider.SceneProvider.SyncFacesRotationData | src/app/lib/SceneProvider.ts:269-280 | the rotations are recomputed only when results exist and match the roster in length |
| Provider.SceneProvider.SetData | src/app/lib/SceneProvider.ts:177-197 | the update is merged in; a resync happens exactly when triggered, else the roster and worker are untouched; rotations are recomputed as the update calls for; the invariant holds |
| Provider.SceneProvider.SetDataAsWritten | src/app/lib/SceneProvider.ts:176-197 | as written, the update is merged and published, then a resync that grows the roster throws exactly when the new count exceeds the dice; the roster, targets, plans, worker and face rotations stay as they were, leaving fewer dice than values; otherwise it resyncs or keeps the roster as `SetData` does |
| Provider.SceneProvider.DeliverFacesData | src/app/lib/SceneProvider.ts:253-257 | a running worker's message becomes the published result, with no resync |
| Provider.SceneProvider.Start | src/app/lib/SceneProvider.ts:281-292 | one unrotated loading spin per die, staging targets from the plans, LOADING on |
| Provider.SceneProvider.MakeRoll | src/app/lib/SceneProvider.ts:293-301 | LOADING gives way to ANIMATION, results and staging are dropped, a fresh rest checker is armed, gravity is on and every die is thrown with its plan |
| Provider.SceneProvider.ThrowDice | src/app/lib/SceneProvider.ts:297-300 | fresh rest checker, gravity on, each die's body thrown by its plan, ids unchanged |
| Provider.SceneProvider.ClearRollState | src/app/lib/SceneProvider.ts:302-308 | staging, plans, spins, rotations and the rest checker are dropped, and the worker is forgotten |
| Provider.SceneProvider.RebuildScene | src/app/lib/SceneProvider.ts:310-315 | a weightless layout of fresh dice, one per value |
| Provider.SceneProvider.Reset | src/app/lib/SceneProvider.ts:302-321 | back to the initial flags with the same roster, fresh dice at their slots, staged, a new worker posted the new plans; the old worker is left running |
| Provider.SceneProvider.StepScene | src/app/lib/SceneProvider.ts:75-149 | the frame count advances while animating; each die moves to its frame body; targets are dropped once all are reached; the roll-due condition is reported exactly |
| Provider.SceneProvider.StepDice | src/app/lib/SceneProvider.ts:80-142 | each die takes its frame body from the stepped world; the arrived count equals the number of targets exactly when every staged die settled; while loading, the done count equals the number of rotations exactly when each of them finished turning |
| Provider.SceneProvider.RollIfDue | src/app/lib/SceneProvider.ts:151-158 | the throw happens exactly when all face rotations are done, a spin is at its start and no target is left, and then throws every die with its plan; otherwise the dice, targets, spins, face rotations, flags, gravity and rest checker are all unchanged |
| Provider.SceneProvider.AdvanceFrame | src/app/lib/SceneProvider.ts:75-158 | the face rotations turn one step and the targets go once all are reached; when the roll was due, every die is its frame body thrown by its plan, LOADING gives way to ANIMATION and a fresh rest checker is armed; otherwise each die is its frame body, the loading spins advance, and flags, gravity and rest checker are unchanged |
| Provider.SceneProvider.RaiseFinalIfRested | src/app/lib/SceneProvider.ts:165-167 | while animating, the rest checker is asked once, and `isFinal` is published exactly when it answers true |
| Provider.SceneProvider.Animate | src/app/lib/SceneProvider.ts:75-175 | one frame keeps the plans, ids and worker and eases the view; every die's new body, the targets, spins and face rotations are given as functions of the state before the frame; it throws exactly when due; during a running roll the rest checker takes one step on the new speeds and `isFinal` is raised exactly when it answers true |
| TutorialSlice.InitialIsTotal | src/app/store/slices/tutorialSlice.ts:9-16 | every status starts unmarked |
| TutorialSlice.MarkSetsThrough | src/app/store/slices/tutorialSlice.ts:22-31 | on an unmarked status, every status up to and including it is marked and later ones are untouched |
| TutorialSlice.MarkIdempotent | src/app/store/slices/tutorialSlice.ts:23 | on a marked status nothing changes, so marking twice is marking once |
| TutorialSlice.MarksNeverCleared | src/app/store/slices/tutorialSlice.ts:25 | a mark, once set, stays set |
| TutorialSlice.MarkKeepsPrefix | src/app/store/slices/tutorialSlice.ts:24-29 | marking keeps the marks a prefix of the tutorial order |
| TutorialSlice.HistoryIsPrefix | src/app/store/slices/tutorialSlice.ts:9-31 | from the initial state, after any dispatches, the marks form a prefix of the order |
| TutorialSlice.TutorialState.MarkStatus | src/app/store/slices/tutorialSlice.ts:22-31 | the loop with `break` leaves exactly the marks `Marked` describes |
| UseTutorial.FindLastMarked | src/app/lib/helpers/useTutorial.ts:12-15 | the result is the last marked status among the first `n`, or none exactly when none of them is marked |
| UseTutorial.LastActiveStatus | src/app/lib/helpers/useTutorial.ts:12-15 | the last status in order whose mark is set, or none exactly when nothing is marked |
| UseTutorial.CheckStatusChangesIff | src/app/lib/helpers/useTutorial.ts:17-24 | `checkStatus` changes the marks exactly when the status is unmarked and the check, if given, passes |
| UseTutorial.CheckStatusBecomesLast | src/app/lib/helpers/useTutorial.ts:12-24 | with prefix marks, a status that `checkStatus` marks becomes the last active one |
| UseTutorial.CheckMarkedKeepsLast | src/app/lib/helpers/useTutorial.ts:19 | on a marked status, `checkStatus` leaves the marks and the last active status as they were |
| UseTutorial.CheckAfterHistory | src/app/lib/helpers/useTutorial.ts:12-24 | after any history of dispatches, a successful `checkStatus` makes its status the last active one |
| UseSceneProvider.StageOf | src/app/lib/helpers/useSceneProvider.ts:28-34 | FINAL exactly when `isFinal`; else ANIMATION exactly when `isAnimation`; else LOADING exactly when `isLoading`; else CONFIG |
| UseSceneProvider.ProviderUpdatesSetStages | src/app/lib/helpers/useSceneProvider.ts:28-34 | the initial snapshot and every reset read as CONFIG, `start` from CONFIG as LOADING, the throw as ANIMATION, `isFinal` as FINAL |
| UseSceneProvider.SceneHook.constructor | src/app/lib/helpers/useSceneProvider.ts:11-16 | the hook starts with stage START, no provider and no init in progress |
| UseSceneProvider.SceneHook.OnUpdate | src/app/lib/helpers/useSceneProvider.ts:27-38 | the callback sets the stage of the snapshot and dispatches its roster to the store |
| UseSceneProvider.SceneHook.InitEffect | src/app/lib/helpers/useSceneProvider.ts:44-48 | an init starts exactly when there is no provider, none is being made, and the canvas is mounted |
| UseSceneProvider.SceneHook.CompleteInit | src/app/lib/helpers/useSceneProvider.ts:18-42 | the one provider is made with the store's roster (running its first frame), publishes CONFIG, and the init ends |
| UseSceneProvider.SceneHook.SetTargetValues | src/app/lib/helpers/useSceneProvider.ts:64-66 | forwards the roster to the provider and takes the snapshot it publishes; no-op without a provider |
| UseSceneProvider.SceneHook.Start | src/app/lib/helpers/useSceneProvider.ts:67-69 | forwards `start` and shows the stage it publishes; no-op without a provider |
| UseSceneProvider.SceneHook.Reset | src/app/lib/helpers/useSceneProvider.ts:70-72 | forwards `reset`; the stage returns to CONFIG with the roster kept; no-op without a provider |
| UseSceneProvider.SceneHook.Frame | src/app/lib/helpers/useSceneProvider.ts:27-38 | after a frame, the stage follows the provider's snapshot |
| SceneView.OnKeyDown | src/app/components/SceneView.tsx:40-51 | a key reading as 1 to 6 replaces exactly that slot; any other key raises the alert |
| SceneView.SingleKeyAcceptedIff | src/app/components/SceneView.tsx:41-42 | a one-character key is accepted exactly when it is a digit from 1 to 6 |
| SceneView.RemoveSlot | src/app/components/SceneView.tsx:61-65 | removing slot `i` deletes exactly that slot and keeps the others in order |
| SceneView.AddSlot | src/app/components/SceneView.tsx:76-78 | adding appends one die showing 1 |
| SceneView.Handle | src/app/components/SceneView.tsx:40-82 | an edit only happens in CONFIG; remove only with more than one die, add only with fewer than six |
| SceneView.EventsKeepRosterInRange | src/app/components/SceneView.tsx:40-82 | whatever the user does, a roster of one to six dice stays one of one to six dice, and outside CONFIG it does not change at all |

## Left out

- Rendering is not modelled. That covers meshes, materials, textures, the camera's look target, orbit controls, screen sizing (`syncSizes`, `calcScreenSizes`, `getFovRange`) and `loadAssets`. The field-of-view range is a parameter.
- The physics engine (cannon) is a parameter: the world step and body lengths are functions in `Engine`.
- The quaternion helpers `rotateBodyTowards`, `getFaceRotationQuant` and `calcLoadingStep` are parameters in `Engine`. So are the mesh quaternion products they feed. Face rotations are kept as the pair of faces they align.
- Utils.MoveBodyTowards takes the distance as an argument whose square is the squared distance. Dafny's reals have no square root.
- Floating-point rounding is not modelled. Reals are exact, so the move and easing lemmas hold for exact arithmetic only.
- Random draws (`genRollReadyState`, `getRandomQuaternion`, `getRandomVector3`) are not modelled. The plans a resync draws are a parameter.
- The worker's messaging is not modelled. `posted` records the plans each worker was sent. DeliverFacesData stands for its message arriving, and `onerror` is not modelled.
- The per-frame scheduling by `requestAnimationFrame` is left out. Animate is one frame.
- World membership of bodies (`world.addBody`, `world.remove`) is not modelled. The roster is the list of dice.
- Only the `SceneProvider` state the core updates is modelled. The canvas and `sceneData`'s renderer parts are not.
- Provider.SceneProvider.Animate: does not state the mesh-only effects of the loop, that is, the loading spin premultiplied into a mesh and the face rotation multiplied into it.
- The tray body (`createTray`) is not modelled.
- SceneView.KeyToNumber: models `Number` for digit strings and blank keys only. It leaves out signs, decimals, exponents, hex and `Infinity`, which no key press produces.
- The view's focus handling, the notification text and the snackbar are left out.
- Redux and persistence glue are left out. So are `diceSlice`, TutorialTip, the layout and page components, and the tray geometry.
- Provider.ResyncedCubes: states the evidently intended growth, a new resting die for each missing slot. As written the source throws at the first missing slot; see Findings and Provider.RebuildRosterAsWritten.
- Provider.RebuildRoster: on growth it builds the intended roster. The loop as written stops with an exception at the first new die (Provider.RebuildRosterAsWritten).
- Provider.SceneProvider.SyncTargetValuesWithScene: on growth it models the intended resync. As written the exception leaves the roster, targets, plans and worker as they were (Provider.SceneProvider.SetDataAsWritten).
- Provider.SceneProvider.SetData: on growth it models the intended resync. As written it merges and publishes the update and then throws (Provider.SceneProvider.SetDataAsWritten).
- UseSceneProvider.SceneHook.SetTargetValues: on growth it models the intended resync. As written the hook still takes the published snapshot, which happens before the throw, but the dice do not grow and the exception reaches the caller.

## Findings

| source | as written | input that shows it | evidently intended | confidence | as-written member | corrected member |
|---|---|---|---|---|---|---|
| src/app/lib/SceneProvider.ts:230 | a slot with no old die is filled by `createCube([coordX, cubeDefaultY, 0], true)`; `createCube` takes the scene assets as its second argument (src/app/lib/utils.ts:188, 200-201), so `true.dice.clone()` throws a TypeError. `setData` has already merged and published the update, and the roster, targets, plans and worker stay as they were | a roster of one die, then `setTargetValues([6, 1])` | a new resting die is appended for each missing slot, staged, and a new worker is posted the new plans | not executed | Provider.RebuildRosterAsWritten, Provider.SceneProvider.SetDataAsWritten, Provider.GrowthNeedsNewDie | Provider.ResyncedCubes |

## Notes on the code

- In the intended growth (see Findings), only the first new die is placed
  at the previous die's x plus `cubeOffset`. Any further new die takes its own layout slot:
  `oldCubes[i - 1]` exists only for `i` equal to the old length
  (src/app/lib/SceneProvider.ts:225-228). Provider.ResyncedCube states this.
- `reset()` forgets the worker without terminating it
  (src/app/lib/SceneProvider.ts:308). Provider.SceneProvider.Reset therefore
  ends with the old worker still in `liveWorkers`, next to the new one. So a
  result from the old worker can still arrive and replace the published
  results (Provider.SceneProvider.DeliverFacesData accepts any live worker).
- In FINAL the frame still steps the world and asks the rest checker. It
  publishes `isFinal: true` again on each calm frame
  (src/app/lib/SceneProvider.ts:165-167).
- `tutorialStatuses` is not among the constants shown. Its order is taken
  as CONFIG, ROLL, RESET, FINAL, the key order of the initial state
  (src/app/store/slices/tutorialSlice.ts:10-15).
