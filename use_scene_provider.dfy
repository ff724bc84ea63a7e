/** The hook that owns the orchestrator for the page: it creates one
    provider, turns every published snapshot into a stage for the view and
    a roster for the store, and forwards the view's actions. */
module UseSceneProvider {
  import opened Types
  import opened Constants
  import opened Utils
  import opened Provider

  /** The hook's `stage`: `START` until the provider first publishes, then
      the stage of the last snapshot. */
  datatype HookStage = START | Reported(stage: ProviderStage)

  /** The stage of a snapshot: `isFinal` wins over `isAnimation`, which wins
      over `isLoading`; with no flag up the roster can be edited. */
  function StageOf(data: ProviderData): (r: ProviderStage)
    ensures r == FINAL <==> data.isFinal
    ensures r == ANIMATION <==> !data.isFinal && data.isAnimation
    ensures r == LOADING <==> !data.isFinal && !data.isAnimation && data.isLoading
    ensures r == CONFIG <==> !data.isFinal && !data.isAnimation && !data.isLoading
  {
    if data.isFinal then FINAL
    else if data.isAnimation then ANIMATION
    else if data.isLoading then LOADING
    else CONFIG
  }

  /** The stages the provider's own updates lead to: the initial snapshot
      and every reset are CONFIG, `start` from CONFIG is LOADING, the throw
      is ANIMATION unless the roll was already final, and raising `isFinal`
      is FINAL. */
  lemma ProviderUpdatesSetStages(data: ProviderData, roster: seq<FaceIndex>)
    ensures StageOf(initialSceneProviderData.(targetValues := roster)) == CONFIG
    ensures StageOf(data) == CONFIG ==> StageOf(data.(isLoading := true)) == LOADING
    ensures !data.isFinal ==>
      StageOf(data.(isLoading := false, isAnimation := true, facesData := [])) == ANIMATION
    ensures StageOf(data.(isFinal := true)) == FINAL
  {
  }

  /** The hook's state: its `stage`, the store's roster, and the refs
      `provider`, `isLoading` and `assets` (whether assets are loaded).
      `providersCreated` counts the providers ever constructed. */
  class SceneHook {
    var stage: HookStage
    var targetValues: seq<FaceIndex>
    var provider: SceneProvider?
    var isLoading: bool
    var assetsLoaded: bool
    ghost var providersCreated: nat

    /** The stage is START exactly while there is no provider; afterwards it
      and the store's roster follow the provider's data; an init in
      progress means there is no provider yet; and at most one provider is
      ever made. */
    ghost predicate Valid()
      reads this, provider, if provider == null then {} else {provider.restChecker}
    {
      && (provider == null <==> stage == START)
      && (provider != null ==>
            && provider.Valid()
            && stage == Reported(StageOf(provider.data))
            && targetValues == provider.data.targetValues)
      && (isLoading ==> provider == null)
      && providersCreated == if provider == null then 0 else 1
    }

    /** The first render: the store's roster, no provider, stage START. */
    constructor (targetValues: seq<FaceIndex>)
      ensures Valid() && stage == START && this.targetValues == targetValues
      ensures provider == null && !isLoading && !assetsLoaded
    {
      stage := START;
      this.targetValues := targetValues;
      provider := null;
      isLoading := false;
      assetsLoaded := false;
      providersCreated := 0;
    }

    /** The provider's update callback: the stage of the snapshot, and its
      roster dispatched to the store. */
    method OnUpdate(data: ProviderData)
      modifies this`stage, this`targetValues
      ensures stage == Reported(StageOf(data)) && targetValues == data.targetValues
    {
      stage := Reported(StageOf(data));
      targetValues := data.targetValues;
    }

    /** The init effect up to `await loadAssets`: start an init only when
      there is no provider, none is being made, and the canvas is mounted. */
    method InitEffect(canvasMounted: bool) returns (started: bool)
      requires Valid()
      modifies this`isLoading
      ensures Valid()
      ensures started <==> old(provider) == null && !old(isLoading) && canvasMounted
      ensures isLoading == (old(isLoading) || started)
    {
      started := false;
      if provider == null && !isLoading {
        if canvasMounted {
          isLoading := true;
          started := true;
        }
      }
    }

    /** The rest of `initProvider`, once the assets are in: construct the
      provider with the store's roster (its constructor publishes the
      initial snapshot and runs the first frame) and end the init. `plans`,
      `fovRange` and `engine` stand for the constructor's random throw
      plans, the screen's field of view and the physics and rotation
      helpers. */
    method CompleteInit(plans: seq<RollReadyState>, fovRange: FovRange, engine: Engine)
      requires Valid() && isLoading && |plans| == |targetValues| && Sound(engine)
      modifies this
      ensures Valid() && fresh(provider) && !isLoading && assetsLoaded && providersCreated == 1
      ensures stage == Reported(CONFIG) && targetValues == old(targetValues)
      ensures provider.data == initialSceneProviderData.(targetValues := targetValues)
    {
      if !assetsLoaded {
        assetsLoaded := true;
      }
      var p := new SceneProvider(targetValues, plans, fovRange, engine);
      OnUpdate(p.data);
      provider := p;
      providersCreated := providersCreated + 1;
      isLoading := false;
    }

    /** `setTargetValues`: forward the new roster to the provider, if there
      is one, and take its published snapshot. `plans` stands for the throw
      plans a resync draws. */
    method SetTargetValues(value: seq<FaceIndex>, plans: seq<RollReadyState>)
      requires Valid()
      requires provider != null && ResyncTriggered(provider.data, NoUpdate.(targetValues := Some(value)))
               ==> |plans| == |value|
      modifies this, provider
      ensures Valid() && provider == old(provider)
      ensures provider == null ==> stage == old(stage) && targetValues == old(targetValues)
      ensures provider != null ==>
        && provider.data == old(provider.data).(targetValues := value)
        && targetValues == value && stage == Reported(StageOf(provider.data))
    {
      if provider != null {
        provider.SetData(NoUpdate.(targetValues := Some(value)), plans);
        OnUpdate(provider.data);
      }
    }

    /** `start`: forward to the provider, if there is one. */
    method Start()
      requires Valid()
      modifies this, provider
      ensures Valid() && provider == old(provider)
      ensures provider == null ==> stage == old(stage) && targetValues == old(targetValues)
      ensures provider != null ==>
        && provider.data == old(provider.data).(isLoading := true)
        && stage == Reported(StageOf(provider.data))
    {
      if provider != null {
        provider.Start();
        OnUpdate(provider.data);
      }
    }

    /** `reset`: forward to the provider, if there is one; the stage returns
      to CONFIG with the roster kept. */
    method Reset(plans: seq<RollReadyState>)
      requires Valid()
      requires provider != null ==> |plans| == |provider.data.targetValues|
      modifies this, provider
      ensures Valid() && provider == old(provider)
      ensures provider == null ==> stage == old(stage) && targetValues == old(targetValues)
      ensures provider != null ==> stage == Reported(CONFIG) && targetValues == old(targetValues)
    {
      if provider != null {
        provider.Reset(plans);
        OnUpdate(provider.data);
      }
    }

    /** One animation frame of the provider, with the snapshot it publishes
      when it throws or when the roll comes to rest. */
    method Frame(engine: Engine, fovRange: FovRange)
      requires Valid() && Sound(engine)
      modifies this, provider, if provider == null then {} else {provider.camera, provider.restChecker}
      ensures Valid() && provider == old(provider)
      ensures provider == null ==> stage == old(stage) && targetValues == old(targetValues)
      ensures provider != null ==> stage == Reported(StageOf(provider.data)) && targetValues == old(targetValues)
    {
      if provider != null {
        provider.Animate(engine, fovRange);
        OnUpdate(provider.data);
      }
    }
  }
}
