/** `WllamaManager` of src/lib/utils/wllama.ts: the single-session lifecycle manager. It owns the
    content store, the current `ModelState` and the `AbortController` of the download in flight.
    Everything the browser or the engine decides is a parameter: what `fetch` delivers, whether the
    cache read or write fails, `navigator.hardwareConcurrency`, whether the engine rejects the model bytes,
    and the engine's completions. The `onProgress` and `onToken` callbacks become the sequences of
    values they would receive. */
module Manager {
  import opened Js
  import opened Catalog
  import opened Download
  import opened Opfs
  import opened Engine

  /** `ModelState`: the record of the model being loaded or loaded. After a load settles the manager
      replaces the record rather than mutating it, so a value is a faithful stand-in for the object. */
  datatype ModelState = ModelState(
    model: ModelInfo,
    instance: Option<Wllama>,
    isLoaded: bool,
    isLoading: bool,
    progress: Option<DownloadProgress>,
    error: Option<string>)

  /** The session invariants: never loading and loaded at once, and loaded exactly when an instance is held. */
  predicate SessionConsistent(s: ModelState) {
    && !(s.isLoading && s.isLoaded)
    && (s.isLoaded <==> s.instance.Some?)
  }

  /** The record `loadModel` installs before downloading. */
  function LoadingState(model: ModelInfo): ModelState {
    ModelState(model, None, false, true, Some(DownloadProgress(0, 0, 0.0, Downloading)), None)
  }

  /** The record after a successful load of `bytes` into `handle`. */
  function LoadedState(model: ModelInfo, handle: Wllama, bytes: nat): ModelState {
    ModelState(model, Some(handle), true, false, Some(CompleteTick(bytes, bytes)), None)
  }

  /** The record after a failed load. */
  function FailedState(model: ModelInfo, e: Thrown): ModelState {
    ModelState(model, None, false, false, Some(DownloadProgress(0, 0, 0.0, Error)), Some(MessageOr(e, "Unknown error")))
  }

  /** The progress value `loadModel` reports once the bytes are in hand, before the engine loads them. */
  const ProcessingTick: DownloadProgress := DownloadProgress(0, 0, 0.0, Processing)

  /** The options of `generateText`/`generateChat`; `onToken` records only whether a callback is given. */
  datatype GenerateOptions = GenerateOptions(
    maxTokens: Option<int>,
    temperature: Option<real>,
    topP: Option<real>,
    stream: Option<bool>,
    onToken: bool)

  const DefaultMaxTokens: int := 512
  const DefaultTemperature: real := 0.7
  const DefaultTopP: real := 0.9

  /** `stream && onToken`, with `stream` defaulting to false. */
  predicate Streams(o: GenerateOptions) {
    o.stream.GetOr(false) && o.onToken
  }

  /** One generation call: what it settles to, the engine request it issues (None: the engine is not
      touched) and the `onToken(fragment, fullText)` calls it makes. */
  datatype Generated = Generated(result: Result<string>, request: Option<Request>, tokens: seq<(string, string)>)

  /** `generateText`/`generateChat` on the manager whose current model is `current`: refused without
      an instance; otherwise one engine request on that instance for that prompt, streamed exactly
      when `stream` and `onToken` are both given, settling as the engine does. */
  function Generation(current: Option<ModelState>, prompt: Prompt, o: GenerateOptions, engine: Request -> Completion): (g: Generated)
    ensures g.request.None? <==> current.None? || current.value.instance.None?
    ensures g.request.None? ==> g.result == Err(NewError("No model loaded")) && g.tokens == []
    ensures g.request.Some? ==>
      && g.request.value.handle == current.value.instance.value
      && g.request.value.prompt == prompt
      && (g.request.value.streaming <==> o.stream == Some(true) && o.onToken)
      && g.result == Settled(engine(g.request.value))
      && |g.tokens| == (if g.request.value.streaming then |engine(g.request.value).pieces| else 0)
  {
    if current.None? || current.value.instance.None? then
      Generated(Err(NewError("No model loaded")), None, [])
    else
      var request := Request(
        current.value.instance.value, prompt, o.maxTokens.GetOr(DefaultMaxTokens),
        Sampling(o.temperature.GetOr(DefaultTemperature), o.topP.GetOr(DefaultTopP)), Streams(o));
      var c := engine(request);
      Generated(Settled(c), Some(request), if request.streaming then TokenTrace(c.pieces) else [])
  }

  /** The content store after `downloadModel` for `id` settles on `root`: the downloaded bytes are
      written only when the download went to the network and completed. */
  function CacheAfterDownload(root: Option<Directory>, id: string, fetched: Fetched, faults: CacheFaults): Option<Directory> {
    var run := Download.Download(Read(root, id, faults.readFails), fetched);
    if run.saves then Stored(root, id, run.result.value, faults.writeFailure) else root
  }

  /** `new TextDecoder().decode(undefined)`: decoding nothing gives the empty string. */
  const UndefinedDecoded: string := ""

  /** `generateText` exactly as its streaming branch is written. That branch does not pass
      `stream: true`, so `createCompletion` resolves to the finished string, and the `for await` walks
      that string's characters: a one-character string has no `piece`, so every step adds
      `UndefinedDecoded`. The `onToken` calls come from `onNewToken` and still carry the engine's
      fragments and its text so far. */
  function TextGenerationAsWritten(current: Option<ModelState>, text: string, o: GenerateOptions,
                                   engine: Request -> Completion): (g: Generated)
    ensures var intended := Generation(current, TextPrompt(text), o, engine);
      && g.request == intended.request
      && g.tokens == intended.tokens
      && (g.request.Some? && g.request.value.streaming ==>
            g.result == if engine(g.request.value).failure.Some? then intended.result else Ok(""))
      && (g.request.None? || !g.request.value.streaming ==> g.result == intended.result)
  {
    var intended := Generation(current, TextPrompt(text), o, engine);
    if intended.request.Some? && intended.request.value.streaming then
      var c := engine(intended.request.value);
      intended.(result := if c.failure.Some? then Err(c.failure.value) else Ok(UndefinedDecoded))
    else intended
  }

  /** `uint8Array.set(chunk, offset)` */
  method SetAt(buffer: array<byte>, chunk: seq<byte>, offset: nat)
    requires offset + |chunk| <= buffer.Length
    modifies buffer
    ensures buffer[..offset] == old(buffer[..offset])
    ensures buffer[offset..offset + |chunk|] == chunk
    ensures buffer[offset + |chunk|..] == old(buffer[offset + |chunk|..])
  {
    for k := 0 to |chunk|
      invariant buffer[..offset] == old(buffer[..offset])
      invariant buffer[offset..offset + k] == chunk[..k]
      invariant buffer[offset + |chunk|..] == old(buffer[offset + |chunk|..])
    {
      buffer[offset + k] := chunk[k];
    }
  }

  /** The streaming loop: `fullText += tokenText; onToken(tokenText, fullText)` for each fragment. */
  method Accumulate(pieces: seq<string>) returns (fullText: string, tokens: seq<(string, string)>)
    ensures fullText == Joined(pieces)
    ensures tokens == TokenTrace(pieces)
  {
    fullText := "";
    tokens := [];
    for i := 0 to |pieces|
      invariant fullText == Joined(pieces[..i])
      invariant tokens == TokenTrace(pieces[..i])
    {
      assert pieces[..i + 1][..i] == pieces[..i];
      fullText := fullText + pieces[i];
      tokens := tokens + [(pieces[i], fullText)];
    }
    assert pieces[..|pieces|] == pieces;
  }

  /** The read loop: collects every chunk, keeps the running `loaded` counter and reports one
      `downloading` progress value per chunk. */
  method ReadChunks(stream: seq<seq<byte>>, total: nat) returns (chunks: seq<seq<byte>>, loaded: nat, ticks: seq<DownloadProgress>)
    ensures chunks == stream
    ensures loaded == SumLengths(stream)
    ensures ticks == Ticks(stream, total)
  {
    chunks := [];
    loaded := 0;
    ticks := [];
    for i := 0 to |stream|
      invariant chunks == stream[..i]
      invariant loaded == SumLengths(chunks)
      invariant ticks == Ticks(chunks, total)
    {
      var value := stream[i];
      assert stream[..i + 1] == chunks + [value];
      assert (chunks + [value])[..|chunks|] == chunks;
      chunks := chunks + [value];
      loaded := loaded + |value|;
      ticks := ticks + [Tick(loaded, total)];
    }
    assert stream[..|stream|] == stream;
  }

  /** The reassembly: a buffer of `loaded` bytes filled chunk after chunk at a running offset. */
  method Assemble(chunks: seq<seq<byte>>, loaded: nat) returns (bytes: seq<byte>)
    requires loaded == SumLengths(chunks)
    ensures bytes == Concat(chunks)
  {
    var buffer := new byte[loaded];
    var offset: nat := 0;
    for j := 0 to |chunks|
      invariant offset == SumLengths(chunks[..j]) <= buffer.Length
      invariant buffer[..offset] == Concat(chunks[..j])
    {
      SumLengthsPrefix(chunks, j + 1);
      assert chunks[..j + 1][..j] == chunks[..j];
      SetAt(buffer, chunks[j], offset);
      assert buffer[..offset + |chunks[j]|] == buffer[..offset] + buffer[offset..offset + |chunks[j]|];
      offset := offset + |chunks[j]|;
    }
    assert chunks[..|chunks|] == chunks;
    bytes := buffer[..];
  }

  class WllamaManager {
    const opfs: OpfsManager
    var currentModel: Option<ModelState>
    var abortController: AbortController?

    /** `this.currentModel?.instance` */
    function Instance(): Option<Wllama>
      reads this
    {
      if currentModel.Some? then currentModel.value.instance else None
    }

    /** The objects the manager holds besides itself and its store: the controller and the instance. */
    function Held(): set<object>
      reads this
    {
      var controller: set<object> := if abortController != null then {abortController} else {};
      var instance: set<object> := if Instance().Some? then {Instance().value} else {};
      controller + instance
    }

    /** The current session is consistent and its instance, if any, has not been released. */
    ghost predicate Valid()
      reads this, Held()
    {
      && (currentModel.Some? ==> SessionConsistent(currentModel.value))
      && (Instance().Some? ==> !Instance().value.exited)
    }

    constructor (opfs: OpfsManager)
      ensures this.opfs == opfs && currentModel == None && abortController == null
      ensures Valid()
    {
      this.opfs := opfs;
      currentModel := None;
      abortController := null;
    }

    /** `initialize()`: initialises the content store. */
    method Initialize(pickerSupported: bool, directory: Option<Directory>) returns (ok: bool)
      modifies opfs
      ensures ok <==> pickerSupported && directory.Some?
      ensures opfs.root == if ok then directory else old(opfs.root)
    {
      ok := opfs.Initialize(pickerSupported, directory);
    }

    /** `downloadModel(model, onProgress)`: the cache lookup, the chunk loop with its running `loaded`
        counter, the offset copy into one buffer, and the best-effort cache write. */
    method DownloadModel(model: ModelInfo, fetched: Fetched, faults: CacheFaults)
      returns (r: Result<seq<byte>>, ticks: seq<DownloadProgress>)
      modifies this, opfs
      ensures currentModel == old(currentModel)
      ensures var run := Download.Download(Read(old(opfs.root), model.id, faults.readFails), fetched);
        && r == run.result
        && ticks == run.ticks
        && opfs.root == CacheAfterDownload(old(opfs.root), model.id, fetched, faults)
      ensures Read(old(opfs.root), model.id, faults.readFails).Some? ==> abortController == old(abortController)
      ensures Read(old(opfs.root), model.id, faults.readFails).None? ==>
        abortController != null && fresh(abortController) && !abortController.aborted
    {
      var cached := opfs.LoadModel(model.id, faults.readFails);
      if cached.Some? {
        ticks := [CompleteTick(|cached.value|, |cached.value|)];
        r := Ok(cached.value);
        return;
      }
      abortController := new AbortController();
      ticks := [];
      if fetched.Rejected? {
        r := Err(Cancelled(fetched.error));
        return;
      }
      if !IsOkStatus(fetched.status) {
        r := Err(Cancelled(HttpError(fetched.status, fetched.statusText)));
        return;
      }
      var total := Total(fetched.contentLength);
      if fetched.body.None? {
        r := Err(Cancelled(NewError("No response body")));
        return;
      }
      var reader := fetched.body.value;
      var chunks, loaded, received := ReadChunks(reader.chunks, total);
      ticks := received;
      if reader.end.ReadFailed? {
        r := Err(Cancelled(reader.end.error));
        return;
      }
      var bytes := Assemble(chunks, loaded);
      var saved := opfs.SaveModel(model.id, bytes, faults.writeFailure);
      // a failed cache write is logged and otherwise ignored
      ticks := ticks + [CompleteTick(loaded, total)];
      r := Ok(bytes);
    }

    /** `initializeWllama(modelBuffer)`: a new engine instance loaded from the bytes with a 2048-token
        context and half the hardware threads; `engineFailure` is the engine rejecting the model. */
    method InitializeWllama(modelBuffer: seq<byte>, hardwareConcurrency: Option<nat>, engineFailure: Option<Thrown>)
      returns (r: Result<Wllama>)
      ensures engineFailure.Some? ==> r == Err(engineFailure.value)
      ensures engineFailure.None? ==> r.Ok? && fresh(r.value) && !r.value.exited
      ensures engineFailure.None? ==> r.value.modelBytes == modelBuffer
      ensures engineFailure.None? ==> r.value.config == LoadConfig(ContextSize, ThreadCount(hardwareConcurrency), false)
    {
      var config := LoadConfig(ContextSize, ThreadCount(hardwareConcurrency), false);
      if engineFailure.Some? {
        return Err(engineFailure.value);
      }
      var wllama := new Wllama(modelBuffer, config);
      return Ok(wllama);
    }

    /** `loadModel(model, onProgress)`: tears the previous session down, installs a loading record,
        downloads (or reads from the cache), reports `processing`, loads the engine, and records the
        outcome. `reported` is every value passed to `onProgress`. */
    method LoadModel(model: ModelInfo, fetched: Fetched, faults: CacheFaults,
                     hardwareConcurrency: Option<nat>, engineFailure: Option<Thrown>)
      returns (r: Result<Wllama>, reported: seq<DownloadProgress>)
      requires Valid()
      modifies this, opfs, Held()
      ensures Valid()
      ensures old(Instance()).Some? ==> old(Instance()).value.exited
      ensures old(abortController) != null ==> old(abortController).aborted
      ensures abortController == null || (fresh(abortController) && !abortController.aborted)
      ensures abortController == null <==> Read(old(opfs.root), model.id, faults.readFails).Some?
      ensures opfs.root == CacheAfterDownload(old(opfs.root), model.id, fetched, faults)
      ensures currentModel.Some? && currentModel.value.model == model
      ensures r.Ok? <==> currentModel.value.isLoaded
      ensures r.Err? ==> currentModel == Some(FailedState(model, r.error))
      ensures var run := Download.Download(Read(old(opfs.root), model.id, faults.readFails), fetched);
        && (run.result.Err? ==>
              && r == Err(run.result.error)
              && reported == run.ticks
              && currentModel == Some(FailedState(model, run.result.error)))
        && (run.result.Ok? && engineFailure.Some? ==>
              && r == Err(engineFailure.value)
              && reported == run.ticks + [ProcessingTick]
              && currentModel == Some(FailedState(model, engineFailure.value)))
        && (run.result.Ok? && engineFailure.None? ==>
              && r.Ok? && fresh(r.value)
              && r.value.modelBytes == run.result.value
              && r.value.config == LoadConfig(ContextSize, ThreadCount(hardwareConcurrency), false)
              && reported == run.ticks + [ProcessingTick]
              && currentModel == Some(LoadedState(model, r.value, |run.result.value|)))
    {
      Cleanup();
      currentModel := Some(LoadingState(model));
      var downloaded, ticks := DownloadModel(model, fetched, faults);
      TrackProgress(ticks);
      reported := ticks;
      if downloaded.Err? {
        RecordLoadError(downloaded.error);
        r := Err(downloaded.error);
        return;
      }
      reported := reported + [ProcessingTick];
      r := LoadEngine(model, downloaded.value, hardwareConcurrency, engineFailure);
    }

    /** The end of `loadModel` once the bytes are in hand: the engine loads them, and the record
        becomes the loaded record or, if the engine throws, the failed one. */
    method LoadEngine(model: ModelInfo, bytes: seq<byte>, hardwareConcurrency: Option<nat>, engineFailure: Option<Thrown>)
      returns (r: Result<Wllama>)
      requires currentModel.Some? && currentModel.value.model == model
      requires currentModel.value.instance.None? && !currentModel.value.isLoaded && currentModel.value.error.None?
      modifies this`currentModel
      ensures engineFailure.Some? ==> r == Err(engineFailure.value) && currentModel == Some(FailedState(model, engineFailure.value))
      ensures engineFailure.None? ==>
                && r.Ok? && fresh(r.value) && !r.value.exited
                && r.value.modelBytes == bytes
                && r.value.config == LoadConfig(ContextSize, ThreadCount(hardwareConcurrency), false)
                && currentModel == Some(LoadedState(model, r.value, |bytes|))
    {
      var wllama := InitializeWllama(bytes, hardwareConcurrency, engineFailure);
      if wllama.Err? {
        RecordLoadError(wllama.error);
        return Err(wllama.error);
      }
      currentModel := Some(currentModel.value.(
        instance := Some(wllama.value),
        isLoaded := true,
        isLoading := false,
        progress := Some(CompleteTick(|bytes|, |bytes|))));
      return Ok(wllama.value);
    }

    /** The progress callback of `loadModel`: each value is stored in the current record in turn, so
        the last one is what remains. */
    method TrackProgress(ticks: seq<DownloadProgress>)
      requires currentModel.Some?
      modifies this`currentModel
      ensures currentModel == Some(old(currentModel).value.(
        progress := if |ticks| > 0 then Some(ticks[|ticks| - 1]) else old(currentModel).value.progress))
      ensures abortController == old(abortController)
    {
      for i := 0 to |ticks|
        invariant currentModel == Some(old(currentModel).value.(
          progress := if i > 0 then Some(ticks[i - 1]) else old(currentModel).value.progress))
        invariant abortController == old(abortController)
      {
        currentModel := Some(currentModel.value.(progress := Some(ticks[i])));
      }
    }

    /** The `catch` block of `loadModel`: the record keeps its model, stops loading, and carries the
        error's message (or "Unknown error") with an `error` progress value. */
    method RecordLoadError(e: Thrown)
      requires currentModel.Some?
      modifies this`currentModel
      ensures currentModel == Some(old(currentModel).value.(
        error := Some(MessageOr(e, "Unknown error")), isLoading := false, progress := Some(DownloadProgress(0, 0, 0.0, Error))))
      ensures abortController == old(abortController)
    {
      currentModel := Some(currentModel.value.(
        error := Some(MessageOr(e, "Unknown error")),
        isLoading := false,
        progress := Some(DownloadProgress(0, 0, 0.0, Error))));
    }

    /** `generateText(prompt, options)` */
    method GenerateText(prompt: string, options: GenerateOptions, engine: Request -> Completion) returns (g: Generated)
      ensures g == Generation(currentModel, TextPrompt(prompt), options, engine)
    {
      if currentModel.None? || currentModel.value.instance.None? {
        return Generated(Err(NewError("No model loaded")), None, []);
      }
      var maxTokens := options.maxTokens.GetOr(DefaultMaxTokens);
      var temperature := options.temperature.GetOr(DefaultTemperature);
      var topP := options.topP.GetOr(DefaultTopP);
      var stream := options.stream.GetOr(false);
      var request := Request(currentModel.value.instance.value, TextPrompt(prompt), maxTokens,
                             Sampling(temperature, topP), stream && options.onToken);
      var completion := engine(request);
      if stream && options.onToken {
        // the engine's onNewToken callback relays each fragment with the text so far
        var fullText, tokens := Accumulate(completion.pieces);
        if completion.failure.Some? {
          return Generated(Err(completion.failure.value), Some(request), tokens);
        }
        return Generated(Ok(fullText), Some(request), tokens);
      }
      return Generated(Settled(completion), Some(request), []);
    }

    /** `generateText(prompt, options)` as its streaming branch is written: the promise settles to the
        empty string however much text the engine produced. */
    method GenerateTextAsWritten(prompt: string, options: GenerateOptions, engine: Request -> Completion) returns (g: Generated)
      ensures g == TextGenerationAsWritten(currentModel, prompt, options, engine)
    {
      if currentModel.None? || currentModel.value.instance.None? {
        return Generated(Err(NewError("No model loaded")), None, []);
      }
      var maxTokens := options.maxTokens.GetOr(DefaultMaxTokens);
      var temperature := options.temperature.GetOr(DefaultTemperature);
      var topP := options.topP.GetOr(DefaultTopP);
      var stream := options.stream.GetOr(false);
      var request := Request(currentModel.value.instance.value, TextPrompt(prompt), maxTokens,
                             Sampling(temperature, topP), stream && options.onToken);
      var completion := engine(request);
      if stream && options.onToken {
        // onNewToken relays each fragment with the engine's text so far
        var _, tokens := Accumulate(completion.pieces);
        if completion.failure.Some? {
          return Generated(Err(completion.failure.value), Some(request), tokens);
        }
        var resolved := Joined(completion.pieces);
        var fullText := "";
        for i := 0 to |resolved|
          invariant fullText == ""
        {
          // the walked value is the character resolved[i], whose `piece` is undefined
          fullText := fullText + UndefinedDecoded;
        }
        return Generated(Ok(fullText), Some(request), tokens);
      }
      return Generated(Settled(completion), Some(request), []);
    }

    /** `generateChat(messages, options)` */
    method GenerateChat(messages: seq<ChatMessage>, options: GenerateOptions, engine: Request -> Completion) returns (g: Generated)
      ensures g == Generation(currentModel, ChatPrompt(messages), options, engine)
    {
      if currentModel.None? || currentModel.value.instance.None? {
        return Generated(Err(NewError("No model loaded")), None, []);
      }
      var maxTokens := options.maxTokens.GetOr(DefaultMaxTokens);
      var temperature := options.temperature.GetOr(DefaultTemperature);
      var topP := options.topP.GetOr(DefaultTopP);
      var stream := options.stream.GetOr(false);
      var request := Request(currentModel.value.instance.value, ChatPrompt(messages), maxTokens,
                             Sampling(temperature, topP), stream && options.onToken);
      var completion := engine(request);
      if stream && options.onToken {
        var fullText, tokens := Accumulate(completion.pieces);
        if completion.failure.Some? {
          return Generated(Err(completion.failure.value), Some(request), tokens);
        }
        return Generated(Ok(fullText), Some(request), tokens);
      }
      return Generated(Settled(completion), Some(request), []);
    }

    /** `cleanup()`: exits the instance (its errors are caught), aborts and drops the controller, and
        forgets the current model. A second call finds nothing to release and changes nothing. */
    method Cleanup()
      modifies this, Held()
      ensures currentModel == None && abortController == null
      ensures old(Instance()).Some? ==> old(Instance()).value.exited
      ensures old(abortController) != null ==> old(abortController).aborted
      ensures Valid()
    {
      if Instance().Some? {
        Instance().value.Exit();
      }
      if abortController != null {
        abortController.Abort();
        abortController := null;
      }
      currentModel := None;
    }

    /** `cancelDownload()`: aborts the controller if there is one, and keeps it. */
    method CancelDownload()
      requires Valid()
      modifies Held()
      ensures Valid()
      ensures abortController == old(abortController) && currentModel == old(currentModel)
      ensures abortController != null ==> abortController.aborted
    {
      if abortController != null {
        abortController.Abort();
      }
    }

    /** `listCachedModels()` */
    method ListCachedModels() returns (names: seq<string>)
      ensures ListsDirectory(names, opfs.root)
    {
      names := opfs.ListModels();
    }

    /** `deleteCachedModel(id)`: removes the file only; a loaded model stays loaded. */
    method DeleteCachedModel(id: string)
      requires Valid()
      modifies opfs
      ensures opfs.root == Deleted(old(opfs.root), id)
      ensures currentModel == old(currentModel) && abortController == old(abortController)
      ensures Valid()
    {
      opfs.DeleteModel(id);
    }

    /** `getModelSize(id)`: the cached byte length, or null when the file is missing or unreadable. */
    method GetModelSize(id: string, readFails: bool) returns (size: Option<nat>)
      ensures size.Some? <==> Read(opfs.root, id, readFails).Some?
      ensures size.Some? ==> size.value == |Read(opfs.root, id, readFails).value|
    {
      var cached := opfs.LoadModel(id, readFails);
      size := if cached.Some? then Some(|cached.value|) else None;
    }
  }

  // ---------------------------------------------------------------------------
  // Lemmas about generation

  /** Without a loaded instance, generation fails with "No model loaded", issues no engine request,
      makes no `onToken` call, and whatever the engine would do makes no difference. */
  lemma GenerationGuard(current: Option<ModelState>, prompt: Prompt, o: GenerateOptions,
                        e1: Request -> Completion, e2: Request -> Completion)
    requires current.None? || current.value.instance.None?
    ensures Generation(current, prompt, o, e1) == Generation(current, prompt, o, e2)
    ensures Generation(current, prompt, o, e1) == Generated(Err(NewError("No model loaded")), None, [])
  {
  }

  /** Omitted options become `nPredict` 512, `temp` 0.7, `top_p` 0.9, and no streaming. */
  lemma GenerationDefaults(current: Option<ModelState>, prompt: Prompt, onToken: bool, engine: Request -> Completion)
    requires current.Some? && current.value.instance.Some?
    ensures var g := Generation(current, prompt, GenerateOptions(None, None, None, None, onToken), engine);
      && g.request.Some?
      && g.request.value.handle == current.value.instance.value
      && g.request.value.nPredict == 512
      && g.request.value.sampling == Sampling(0.7, 0.9)
      && !g.request.value.streaming
      && g.tokens == []
  {
  }

  /** Streaming happens exactly when both `stream` and `onToken` are given; then the k-th `onToken`
      call receives the k-th fragment and the fragments so far, and a stream that completes settles to
      the text its last call received. When the engine's fragments do not depend on the mode, the
      streamed and the batch call settle to the same value. */
  lemma {:induction false} StreamingMatchesBatch(current: Option<ModelState>, prompt: Prompt, o: GenerateOptions,
                                                 engine: Request -> Completion, k: nat)
    requires current.Some? && current.value.instance.Some?
    requires forall q: Request :: engine(q.(streaming := false)) == engine(q)
    ensures var g := Generation(current, prompt, o, engine);
      && (g.request.value.streaming <==> o.stream == Some(true) && o.onToken)
      && g.result == Generation(current, prompt, o.(stream := Some(false)), engine).result
      && (g.request.value.streaming && k < |g.tokens| ==>
            g.tokens[k] == (engine(g.request.value).pieces[k], Joined(engine(g.request.value).pieces[..k + 1])))
      && (g.request.value.streaming && g.result.Ok? && |g.tokens| > 0 ==> g.tokens[|g.tokens| - 1].1 == g.result.value)
  {
    var g := Generation(current, prompt, o, engine);
    var q := g.request.value;
    assert engine(q.(streaming := false)) == engine(q);
    if q.streaming {
      var pieces := engine(q).pieces;
      if k < |pieces| {
        TokenTraceAt(pieces, k);
      }
      if |pieces| > 0 {
        TokenTraceAt(pieces, |pieces| - 1);
        assert pieces[..|pieces|] == pieces;
      }
    }
  }

  /** As written, a streamed `generateText` whose engine produces some text settles to the empty
      string, although its last `onToken` call carried that whole text; the intended result, which
      `generateChat` delivers, is the text itself. */
  lemma StreamedTextIsLost(current: Option<ModelState>, text: string, o: GenerateOptions, engine: Request -> Completion)
    requires current.Some? && current.value.instance.Some?
    requires o.stream == Some(true) && o.onToken
    requires var c := engine(Generation(current, TextPrompt(text), o, engine).request.value);
      c.failure.None? && Joined(c.pieces) != ""
    ensures var intended := Generation(current, TextPrompt(text), o, engine);
      var c := engine(intended.request.value);
      && TextGenerationAsWritten(current, text, o, engine).result == Ok("")
      && intended.result == Ok(Joined(c.pieces)) != Ok("")
      && |intended.tokens| > 0
      && intended.tokens[|intended.tokens| - 1].1 == Joined(c.pieces)
  {
    var intended := Generation(current, TextPrompt(text), o, engine);
    var pieces := engine(intended.request.value).pieces;
    assert pieces != [];
    TokenTraceAt(pieces, |pieces| - 1);
    assert pieces[..|pieces|] == pieces;
  }

  /** A download whose cache write failed once the file existed leaves an empty `.gguf` file behind,
      and every later `downloadModel` of that id serves it as a complete 0-byte model without fetching. */
  lemma FailedCacheWriteServedLater(root: Option<Directory>, id: string, data: seq<byte>, e: Thrown, fetched: Fetched)
    requires root.Some? && Lookup(root, id).None?
    ensures Download.Download(Read(Stored(root, id, data, Some(AfterCreate(e))), id, false), fetched)
            == Run(Ok([]), [CompleteTick(0, 0)], false)
  {
    FailedWriteLeavesFile(root, id, data, e);
  }
}
