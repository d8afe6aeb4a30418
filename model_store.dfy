/** `modelStore` and `modelActions` of src/lib/stores/model.ts: the reactive record the UI reads,
    and the actions that drive the `WllamaManager` and copy its results into that record. Each
    `modelStore.update(state => ...)` is a reassignment of `state` by a pure updater. */
module ModelStore {
  import opened Js
  import opened Catalog
  import opened Download
  import opened Opfs
  import opened Engine
  import opened Manager

  /** `ModelStoreState['settings']` */
  datatype Settings = Settings(
    autoLoadLastModel: bool,
    streamingEnabled: bool,
    maxTokens: int,
    temperature: real,
    topP: real)

  /** `Partial<ModelStoreState['settings']>`: None for a key the caller leaves out. */
  datatype SettingsPatch = SettingsPatch(
    autoLoadLastModel: Option<bool>,
    streamingEnabled: Option<bool>,
    maxTokens: Option<int>,
    temperature: Option<real>,
    topP: Option<real>)

  /** `ModelStoreState` */
  datatype ModelStoreState = ModelStoreState(
    availableModels: seq<ModelInfo>,
    currentModel: Option<ModelState>,
    isInitializing: bool,
    isLoading: bool,
    downloadProgress: Option<DownloadProgress>,
    error: Option<string>,
    cachedModels: seq<string>,
    settings: Settings)

  /** `initialState` */
  const InitialState: ModelStoreState := ModelStoreState(
    AvailableModels, None, false, false, None, None, [], Settings(true, true, 512, 0.7, 0.9))

  /** `{ ...state.settings, ...settings }` */
  function Patched(s: Settings, p: SettingsPatch): (r: Settings)
    ensures p.autoLoadLastModel.Some? ==> r.autoLoadLastModel == p.autoLoadLastModel.value
    ensures p.autoLoadLastModel.None? ==> r.autoLoadLastModel == s.autoLoadLastModel
    ensures p.streamingEnabled.Some? ==> r.streamingEnabled == p.streamingEnabled.value
    ensures p.streamingEnabled.None? ==> r.streamingEnabled == s.streamingEnabled
    ensures p.maxTokens.Some? ==> r.maxTokens == p.maxTokens.value
    ensures p.maxTokens.None? ==> r.maxTokens == s.maxTokens
    ensures p.temperature.Some? ==> r.temperature == p.temperature.value
    ensures p.temperature.None? ==> r.temperature == s.temperature
    ensures p.topP.Some? ==> r.topP == p.topP.value
    ensures p.topP.None? ==> r.topP == s.topP
  {
    Settings(
      p.autoLoadLastModel.GetOr(s.autoLoadLastModel),
      p.streamingEnabled.GetOr(s.streamingEnabled),
      p.maxTokens.GetOr(s.maxTokens),
      p.temperature.GetOr(s.temperature),
      p.topP.GetOr(s.topP))
  }

  /** The patch applying `p` and then `q`: a later key wins. */
  function Then(p: SettingsPatch, q: SettingsPatch): SettingsPatch {
    SettingsPatch(
      if q.autoLoadLastModel.Some? then q.autoLoadLastModel else p.autoLoadLastModel,
      if q.streamingEnabled.Some? then q.streamingEnabled else p.streamingEnabled,
      if q.maxTokens.Some? then q.maxTokens else p.maxTokens,
      if q.temperature.Some? then q.temperature else p.temperature,
      if q.topP.Some? then q.topP else p.topP)
  }

  /** `updateSettings(settings)` as an updater: only the settings change. */
  function WithSettings(state: ModelStoreState, p: SettingsPatch): ModelStoreState {
    state.(settings := Patched(state.settings, p))
  }

  /** `isModelCached(id)`: `cachedModels.includes(id)`. */
  predicate IsModelCached(state: ModelStoreState, id: string): (b: bool)
    ensures b <==> exists i :: 0 <= i < |state.cachedModels| && state.cachedModels[i] == id
  {
    id in state.cachedModels
  }

  /** `availableModels.find(model => model.id === id)`: the first entry with that id. */
  function FindModel(models: seq<ModelInfo>, id: string): (r: Option<ModelInfo>)
    ensures r.None? <==> forall i :: 0 <= i < |models| ==> models[i].id != id
    ensures r.Some? ==> exists i :: 0 <= i < |models| && models[i] == r.value && r.value.id == id
                                    && forall j :: 0 <= j < i ==> models[j].id != id
  {
    if models == [] then None
    else if models[0].id == id then Some(models[0])
    else
      var rest := FindModel(models[1..], id);
      assert forall i :: 1 <= i < |models| ==> models[i] == models[1..][i - 1];
      if rest.Some? then
        ghost var k :| 0 <= k < |models[1..]| && models[1..][k] == rest.value && rest.value.id == id
                       && forall j :: 0 <= j < k ==> models[1..][j].id != id;
        assert models[k + 1] == rest.value;
        rest
      else rest
  }

  /** `getModelById(id)` */
  function GetModelById(state: ModelStoreState, id: string): Option<ModelInfo> {
    FindModel(state.availableModels, id)
  }

  /** The options `generateText`/`generateChat` hand on: each one the caller leaves out is taken
      from the settings (`??`); `onToken` is passed as given. */
  function ResolvedOptions(settings: Settings, maxTokens: Option<int>, temperature: Option<real>, topP: Option<real>,
                           stream: Option<bool>, onToken: bool): (o: GenerateOptions)
    ensures o.maxTokens == Some(if maxTokens.Some? then maxTokens.value else settings.maxTokens)
    ensures o.temperature == Some(if temperature.Some? then temperature.value else settings.temperature)
    ensures o.topP == Some(if topP.Some? then topP.value else settings.topP)
    ensures o.stream == Some(if stream.Some? then stream.value else settings.streamingEnabled)
    ensures o.onToken == onToken
  {
    GenerateOptions(
      Some(maxTokens.GetOr(settings.maxTokens)), Some(temperature.GetOr(settings.temperature)),
      Some(topP.GetOr(settings.topP)), Some(stream.GetOr(settings.streamingEnabled)), onToken)
  }

  class Store {
    var state: ModelStoreState
    const manager: WllamaManager

    constructor (manager: WllamaManager)
      ensures this.manager == manager && state == InitialState
    {
      this.manager := manager;
      state := InitialState;
    }

    /** `initialize()` as written: after initialising the content store and recording the listing,
        the auto-load check reads `state`, which is not declared in the module, so the `catch` block
        always runs with a `ReferenceError`: it records the error, clears `isInitializing` and rethrows. */
    method Initialize(pickerSupported: bool, directory: Option<Directory>) returns (o: Outcome)
      modifies this, manager.opfs
      ensures manager.opfs.root == if pickerSupported && directory.Some? then directory else old(manager.opfs.root)
      ensures o == Threw(ErrorObject("ReferenceError", "state is not defined"))
      ensures ListsDirectory(state.cachedModels, manager.opfs.root)
      ensures state == old(state).(isInitializing := false, error := Some("state is not defined"), cachedModels := state.cachedModels)
    {
      state := state.(isInitializing := true, error := None);
      var ok := manager.Initialize(pickerSupported, directory);
      var cached := manager.ListCachedModels();
      state := state.(cachedModels := cached, isInitializing := false);
      var e := ErrorObject("ReferenceError", "state is not defined");
      state := state.(error := Some(MessageOr(e, "Failed to initialize")), isInitializing := false);
      return Threw(e);
    }

    /** `initialize()` as evidently intended: the auto-load check reads the store's own current
        value, and reloads the remembered model when `autoLoadLastModel` is on. The load's inputs are
        those of `LoadModel`; a failed load is recorded with the `Failed to initialize` fallback and
        rethrown. */
    method InitializeAutoLoad(pickerSupported: bool, directory: Option<Directory>,
                              fetched: Fetched, faults: CacheFaults,
                              hardwareConcurrency: Option<nat>, engineFailure: Option<Thrown>) returns (o: Outcome)
      requires manager.Valid()
      modifies this, manager, manager.opfs, manager.Held()
      ensures manager.Valid()
      ensures var reached := if pickerSupported && directory.Some? then directory else old(manager.opfs.root);
        && (!(old(state.settings.autoLoadLastModel) && old(state.currentModel).Some?) ==>
              && o == Returned
              && manager.currentModel == old(manager.currentModel)
              && manager.opfs.root == reached
              && ListsDirectory(state.cachedModels, reached)
              && state == old(state).(isInitializing := false, error := None, cachedModels := state.cachedModels))
        && (old(state.settings.autoLoadLastModel) && old(state.currentModel).Some? ==>
              var model := old(state.currentModel).value.model;
              && manager.opfs.root == CacheAfterDownload(reached, model.id, fetched, faults)
              && (old(manager.Instance()).Some? ==> old(manager.Instance()).value.exited)
              && (old(manager.abortController) != null ==> old(manager.abortController).aborted)
              && manager.currentModel.Some? && manager.currentModel.value.model == model
              && (o.Returned? <==> manager.currentModel.value.isLoaded)
              && (o.Returned? ==>
                    && ListsDirectory(state.cachedModels, manager.opfs.root)
                    && state == old(state).(isInitializing := false, currentModel := manager.currentModel, isLoading := false,
                                            error := None, downloadProgress := None, cachedModels := state.cachedModels))
              && (o.Threw? ==>
                    && manager.currentModel == Some(FailedState(model, o.error))
                    && ListsDirectory(state.cachedModels, reached)
                    && state == old(state).(isInitializing := false, isLoading := false,
                                            error := Some(MessageOr(o.error, "Failed to initialize")),
                                            downloadProgress := None, cachedModels := state.cachedModels)))
    {
      state := state.(isInitializing := true, error := None);
      var ok := manager.Initialize(pickerSupported, directory);
      var cached := manager.ListCachedModels();
      state := state.(cachedModels := cached, isInitializing := false);
      if state.settings.autoLoadLastModel && state.currentModel.Some? {
        o := LoadModel(state.currentModel.value.model, fetched, faults, hardwareConcurrency, engineFailure);
        if o.Threw? {
          state := state.(error := Some(MessageOr(o.error, "Failed to initialize")), isInitializing := false);
        }
        return;
      }
      return Returned;
    }

    /** `loadModel(model)`: marks the store loading, relays each progress value, and on success copies
        the manager's record and a fresh listing; on failure records the message and rethrows, leaving
        `currentModel` as it was. */
    method LoadModel(model: ModelInfo, fetched: Fetched, faults: CacheFaults,
                     hardwareConcurrency: Option<nat>, engineFailure: Option<Thrown>) returns (o: Outcome)
      requires manager.Valid()
      modifies this, manager, manager.opfs, manager.Held()
      ensures manager.Valid()
      ensures manager.opfs.root == CacheAfterDownload(old(manager.opfs.root), model.id, fetched, faults)
      ensures old(manager.Instance()).Some? ==> old(manager.Instance()).value.exited
      ensures old(manager.abortController) != null ==> old(manager.abortController).aborted
      ensures manager.currentModel.Some? && manager.currentModel.value.model == model
      ensures o.Returned? <==> manager.currentModel.value.isLoaded
      ensures o.Returned? ==>
                && ListsDirectory(state.cachedModels, manager.opfs.root)
                && state == old(state).(currentModel := manager.currentModel, isLoading := false, error := None,
                                        downloadProgress := None, cachedModels := state.cachedModels)
      ensures o.Threw? ==>
                && manager.currentModel == Some(FailedState(model, o.error))
                && state == old(state).(isLoading := false, error := Some(MessageOr(o.error, "Failed to load model")),
                                        downloadProgress := None)
    {
      state := state.(isLoading := true, error := None, downloadProgress := None);
      var loaded, reported := manager.LoadModel(model, fetched, faults, hardwareConcurrency, engineFailure);
      RelayProgress(reported);
      o := SettleLoad(loaded);
    }

    /** The end of `loadModel` once the manager has settled: a failure goes to the `catch` block, a
        success to the store's copy of the manager's record. */
    method SettleLoad(loaded: Result<Wllama>) returns (o: Outcome)
      modifies this`state
      ensures o.Returned? <==> loaded.Ok?
      ensures o.Threw? ==>
                && o.error == loaded.error
                && state == old(state).(isLoading := false, error := Some(MessageOr(o.error, "Failed to load model")),
                                        downloadProgress := None)
      ensures o.Returned? ==>
                && ListsDirectory(state.cachedModels, manager.opfs.root)
                && state == old(state).(currentModel := manager.currentModel, isLoading := false,
                                        downloadProgress := None, cachedModels := state.cachedModels)
    {
      if loaded.Err? {
        RecordFailure(loaded.error, "Failed to load model");
        return Threw(loaded.error);
      }
      RecordLoaded();
      return Returned;
    }

    /** A `catch` block of the store: records the error's message, or the fallback, and clears the
        loading state. */
    method RecordFailure(e: Thrown, fallback: string)
      modifies this`state
      ensures state == old(state).(error := Some(MessageOr(e, fallback)), isLoading := false, downloadProgress := None)
    {
      state := state.(error := Some(MessageOr(e, fallback)), isLoading := false, downloadProgress := None);
    }

    /** The success path of `loadModel`: copies the manager's record, clears the loading state, and
        stores a fresh listing. */
    method RecordLoaded()
      modifies this`state
      ensures ListsDirectory(state.cachedModels, manager.opfs.root)
      ensures state == old(state).(currentModel := manager.currentModel, isLoading := false,
                                   downloadProgress := None, cachedModels := state.cachedModels)
    {
      state := state.(currentModel := manager.currentModel, isLoading := false, downloadProgress := None);
      var cached := manager.ListCachedModels();
      state := state.(cachedModels := cached);
    }

    /** The `onProgress` callback of `loadModel`: each reported value is copied into the store in
        turn, so the last one is what remains. */
    method RelayProgress(reported: seq<DownloadProgress>)
      modifies this`state
      ensures state == old(state).(downloadProgress := if |reported| > 0 then Some(reported[|reported| - 1]) else old(state.downloadProgress))
    {
      for i := 0 to |reported|
        invariant state == old(state).(downloadProgress := if i > 0 then Some(reported[i - 1]) else old(state.downloadProgress))
      {
        state := state.(downloadProgress := Some(reported[i]));
      }
    }

    /** `unloadModel()`: releases the session and forgets the store's model. */
    method UnloadModel()
      modifies this, manager, manager.Held()
      ensures manager.currentModel == None && manager.abortController == null && manager.Valid()
      ensures old(manager.Instance()).Some? ==> old(manager.Instance()).value.exited
      ensures old(manager.abortController) != null ==> old(manager.abortController).aborted
      ensures state == old(state).(currentModel := None)
    {
      manager.Cleanup();
      state := state.(currentModel := None);
    }

    /** `cancelDownload()`: aborts the download in flight and clears the loading flag and progress. */
    method CancelDownload()
      requires manager.Valid()
      modifies this, manager.Held()
      ensures manager.Valid()
      ensures manager.abortController != null ==> manager.abortController.aborted
      ensures manager.currentModel == old(manager.currentModel)
      ensures state == old(state).(isLoading := false, downloadProgress := None)
    {
      manager.CancelDownload();
      state := state.(isLoading := false, downloadProgress := None);
    }

    /** `generateText(prompt, options)` */
    method GenerateText(prompt: string, maxTokens: Option<int>, temperature: Option<real>, topP: Option<real>,
                        stream: Option<bool>, onToken: bool, engine: Request -> Completion) returns (g: Generated)
      ensures g == Generation(manager.currentModel, TextPrompt(prompt),
                              ResolvedOptions(state.settings, maxTokens, temperature, topP, stream, onToken), engine)
    {
      var options := ResolvedOptions(state.settings, maxTokens, temperature, topP, stream, onToken);
      g := manager.GenerateText(prompt, options, engine);
    }

    /** `generateChat(messages, options)` */
    method GenerateChat(messages: seq<ChatMessage>, maxTokens: Option<int>, temperature: Option<real>, topP: Option<real>,
                        stream: Option<bool>, onToken: bool, engine: Request -> Completion) returns (g: Generated)
      ensures g == Generation(manager.currentModel, ChatPrompt(messages),
                              ResolvedOptions(state.settings, maxTokens, temperature, topP, stream, onToken), engine)
    {
      var options := ResolvedOptions(state.settings, maxTokens, temperature, topP, stream, onToken);
      g := manager.GenerateChat(messages, options, engine);
    }

    /** `deleteCachedModel(id)`: deletes the file, refreshes the listing, and unloads the model when it
        is the one the store shows. Nothing on this path throws, so its `catch` block is unreachable. */
    method DeleteCachedModel(id: string)
      requires manager.Valid()
      modifies this, manager, manager.opfs, manager.Held()
      ensures manager.Valid()
      ensures manager.opfs.root == Deleted(old(manager.opfs.root), id)
      ensures ListsDirectory(state.cachedModels, manager.opfs.root)
      ensures var unloads := old(state.currentModel).Some? && old(state.currentModel).value.model.id == id;
        && (unloads ==>
              && manager.currentModel == None && manager.abortController == null
              && (old(manager.Instance()).Some? ==> old(manager.Instance()).value.exited)
              && (old(manager.abortController) != null ==> old(manager.abortController).aborted)
              && state == old(state).(currentModel := None, cachedModels := state.cachedModels))
        && (!unloads ==>
              && manager.currentModel == old(manager.currentModel)
              && manager.abortController == old(manager.abortController)
              && state == old(state).(cachedModels := state.cachedModels))
    {
      manager.DeleteCachedModel(id);
      var cached := manager.ListCachedModels();
      state := state.(cachedModels := cached);
      if state.currentModel.Some? && state.currentModel.value.model.id == id {
        UnloadModel();
      }
    }

    /** `updateSettings(settings)` */
    method UpdateSettings(p: SettingsPatch)
      modifies this
      ensures state == WithSettings(old(state), p)
    {
      state := WithSettings(state, p);
    }

    /** `clearError()` */
    method ClearError()
      modifies this
      ensures state == old(state).(error := None)
    {
      state := state.(error := None);
    }

    /** `refreshCachedModels()`: replaces the listing and nothing else. */
    method RefreshCachedModels()
      modifies this
      ensures ListsDirectory(state.cachedModels, manager.opfs.root)
      ensures state == old(state).(cachedModels := state.cachedModels)
    {
      var cached := manager.ListCachedModels();
      state := state.(cachedModels := cached);
    }

    /** `getModelSize(id)` */
    method GetModelSize(id: string, readFails: bool) returns (size: Option<nat>)
      ensures size.Some? <==> Read(manager.opfs.root, id, readFails).Some?
      ensures size.Some? ==> size.value == |Read(manager.opfs.root, id, readFails).value|
    {
      size := manager.GetModelSize(id, readFails);
    }
  }

  // ---------------------------------------------------------------------------
  // Lemmas

  /** The store starts with the catalog, nothing loaded or cached, and the default settings:
      auto-load and streaming on, 512 tokens, temperature 0.7, top-p 0.9. */
  lemma InitialStateDefaults()
    ensures InitialState.availableModels == AvailableModels && |InitialState.availableModels| == 4
    ensures InitialState.currentModel == None && InitialState.cachedModels == []
    ensures !InitialState.isLoading && !InitialState.isInitializing && InitialState.error == None
    ensures InitialState.settings.autoLoadLastModel && InitialState.settings.streamingEnabled
    ensures InitialState.settings.maxTokens == DefaultMaxTokens
    ensures InitialState.settings.temperature == DefaultTemperature && InitialState.settings.topP == DefaultTopP
  {
  }

  /** Patching is a right-biased merge: an empty patch changes nothing, a patch applied twice acts
      once, and two patches in a row act as their merge. */
  lemma PatchLaws(s: Settings, p: SettingsPatch, q: SettingsPatch)
    ensures Patched(s, SettingsPatch(None, None, None, None, None)) == s
    ensures Patched(Patched(s, p), p) == Patched(s, p)
    ensures Patched(Patched(s, p), q) == Patched(s, Then(p, q))
  {
  }

  /** `getModelById` finds nothing for an id no catalog entry has. */
  lemma CatalogMissing(id: string)
    requires forall m :: m in AvailableModels ==> m.id != id
    ensures GetModelById(InitialState, id) == None
  {
  }

  /** `getModelById` finds every catalog entry by its id: the catalog's ids are distinct. */
  lemma CatalogLookup(i: nat)
    requires i < |AvailableModels|
    ensures GetModelById(InitialState, AvailableModels[i].id) == Some(AvailableModels[i])
  {
    assert AvailableModels[0].id[0] == 'g' && AvailableModels[1].id[0] == 'p';
    assert AvailableModels[2].id[0] == 't' && AvailableModels[3].id[0] == 'q';
    FindDistinct(AvailableModels, i);
  }

  /** In a list whose other entries all have other ids, `find` returns the entry itself. */
  lemma FindDistinct(models: seq<ModelInfo>, i: nat)
    requires i < |models|
    requires forall j :: 0 <= j < |models| && j != i ==> models[j].id != models[i].id
    ensures FindModel(models, models[i].id) == Some(models[i])
  {
  }

  /** With the store's initial settings, a generation call that leaves every option out asks the
      engine for the manager's default budget and sampling, and streams exactly when an `onToken`
      callback is given: the store's `streamingEnabled` default overrides the manager's. */
  lemma StoreDefaultsStream(current: Option<ModelState>, prompt: Prompt, onToken: bool, engine: Request -> Completion)
    requires current.Some? && current.value.instance.Some?
    ensures var g := Generation(current, prompt, ResolvedOptions(InitialState.settings, None, None, None, None, onToken), engine);
      var m := Generation(current, prompt, GenerateOptions(None, None, None, None, onToken), engine);
      && g.request.value == m.request.value.(streaming := onToken)
      && (!onToken ==> g == m)
  {
    GenerationDefaults(current, prompt, onToken, engine);
  }

  /** After a refresh, `isModelCached(id)` holds for every cached model whose id contains no `.gguf`. */
  lemma CachedAfterRefresh(state: ModelStoreState, root: Option<Directory>, id: string)
    requires ListsDirectory(state.cachedModels, root)
    requires NoExtensionInside(id)
    requires Lookup(root, id).Some?
    ensures IsModelCached(state, id)
  {
    ListedNameRoundTrip(id);
    assert FileName(id) in GgufFiles(root.value);
    ListingCoversEachFileOnce(state.cachedModels, root.value);
  }
}
