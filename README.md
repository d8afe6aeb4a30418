# AI Garden model runtime, modelled in Dafny

AI Garden runs small GGUF language models in the browser. The core has three parts:

- **`WllamaManager`** in `src/lib/utils/wllama.ts` manages one model session at a time:
  - It downloads a model file, reporting progress as it goes.
  - It caches the file in the origin-private file system through `OPFSManager`.
  - It loads the bytes into a `Wllama` engine instance.
  - It generates text or chat completions, in batch or streaming mode.
  - It releases the session on cleanup.
- **`modelStore`/`modelActions`** in `src/lib/stores/model.ts` is the reactive record the UI reads. Its actions:
  - drive the manager;
  - fill in generation options from the stored settings;
  - copy results back into the record.
- **`aiStore`/`aiActions`** in `src/lib/stores/ai.ts` holds the conversation:
  - Messages are appended under a history cap.
  - Messages can be removed, edited and counted.
  - Replies are requested through the model store. Each outcome, reply or error, is recorded as an assistant message.

The Dafny project has one module per component:

- `Js`: optional values, thrown values, promise outcomes, and `indexOf`/`replace`.
- `Catalog`: bytes, `ModelInfo` and `AVAILABLE_MODELS`.
- `Download`: `downloadModel` as a function of the cache and the network.
- `Opfs`: the `OpfsManager` class over an optional `models/` directory map.
- `Engine`: the abort controller, the `Wllama` handle, the thread count, and requests and completions.
- `Manager`: the `WllamaManager` class and the `Generation` specification.
- `ModelStore`: the model store.
- `ChatStore`: the chat store.

Objects that the source mutates in place are classes whose methods say exactly how their state changes:

- the content store;
- the manager with its current model and abort controller;
- the engine handle and the abort controller;
- both stores.

Each `store.update(state => …)` is modelled as a reassignment by a pure updater.

Everything the browser or the engine decides is an input:

- what `fetch` delivers: a rejection, or a status, a `content-length` and a body of chunks that ends or fails;
- whether reading a cached file rejects, and whether writing one fails before or after the file exists;
- `navigator.hardwareConcurrency`;
- whether the engine rejects the model;
- the engine's completions, as a function from request to fragments plus an optional failure;
- `crypto.randomUUID()` and `new Date()`.

Callbacks become the sequences of values they receive: the progress values passed to `onProgress`, and the `(fragment, fullText)` pairs passed to `onToken`.

Facts of the source that the model makes explicit:

- A cached file is a cache hit even when it is empty.
- Without a `content-length` header, every `downloading` value reports 0 percent.
- An abort surfaces as `Download cancelled`.
- A failed download never reaches the cache.
- A cache write that fails after `getFileHandle(…, {create: true})` leaves an empty `.gguf` file when there was none. Every later `downloadModel` of that id serves it as a complete 0-byte model without fetching.
- A cached file that cannot be read counts as a miss for `downloadModel` and `getModelSize`, while `hasModel` still finds it.
- The engine thread count is `floor(cores / 2)`, with a missing or zero reading taken as one core. It is zero on a one-core machine; the code sets no minimum.
- `listModels` removes the first `.gguf` of a file name, not the suffix. An id that itself contains `.gguf` is listed under another name.
- `initialize()` reads an undeclared `state`, so it always throws a `ReferenceError` (see Findings). The model gives it the message "state is not defined", which is how V8-based browsers word it. Other engines word it differently, for example Safari's "Can't find variable: state".
- After a failed load the model store keeps showing the previous model, while the manager has already released it. A chat action then passes the store's "loaded" check, the manager answers "No model loaded", and that error becomes the assistant message.

## Model

| member | source | states |
|---|---|---|
| Js.IndexOf | src/lib/utils/wllama.ts:181 | `indexOf` finds the first occurrence at or after the start, or -1 when there is none |
| Js.RemoveFirst | src/lib/utils/wllama.ts:181 | `replace('.gguf', '')` leaves the string unchanged when the pattern occurs nowhere, and otherwise cuts out its first occurrence and nothing else |
| Js.NatToString | src/lib/utils/wllama.ts:240-242 | the status number in the HTTP error message is rendered as decimal digits without a leading zero that read back to the number |
| Download.Concat | src/lib/utils/wllama.ts:272-281 | the reassembled buffer is exactly as long as the running `loaded` counter |
| Download.Ticks | src/lib/utils/wllama.ts:255-270 | one `downloading` progress value per chunk received |
| Download.Download | src/lib/utils/wllama.ts:213-302 | the bytes go to the cache only on a cache miss whose download completed |
| Download.SumLengthsPrefix | src/lib/utils/wllama.ts:260-261 | the `loaded` counter after a prefix of the chunks never exceeds the total |
| Download.TickAt | src/lib/utils/wllama.ts:255-270 | the k-th progress value reports the lengths of chunks 0..k summed, against the parsed total |
| Download.TicksMonotone | src/lib/utils/wllama.ts:255-270 | `loaded` never decreases across `downloading` values and never exceeds the bytes received |
| Download.CacheHit | src/lib/utils/wllama.ts:218-228 | a cache hit returns the stored bytes with one `complete` value at 100 percent, saves nothing, and issues no fetch |
| Download.ProgressMonotone | src/lib/utils/wllama.ts:255-293 | across all progress values of one download, the final `complete` one included, `loaded` never decreases |
| Download.DownloadedBuffer | src/lib/utils/wllama.ts:255-295 | a completed download returns the chunks concatenated in order; the values before the last carry running sums, and the last is `complete` at 100 percent with `loaded` equal to the buffer length |
| Download.FailureNeverStored | src/lib/utils/wllama.ts:234-301 | every failure settles before `saveModel`, and an `AbortError` becomes "Download cancelled" |
| Download.UnknownTotalReportsZero | src/lib/utils/wllama.ts:244-268 | without `content-length` every `downloading` value reports 0 percent |
| Download.ThreeChunkDownload | src/lib/utils/wllama.ts:255-295 | chunks of 300M, 300M and 100M bytes report 300M, 600M and 700M loaded, then `complete` at 100 percent |
| Opfs.OpfsManager.constructor | src/lib/utils/wllama.ts:82-84 | a new content store has no root |
| Opfs.OpfsManager.Initialize | src/lib/utils/wllama.ts:93-107 | succeeds exactly when the picker exists and the root handle is obtained, and installs that root |
| Opfs.OpfsManager.SaveModel | src/lib/utils/wllama.ts:109-125 | throws "OPFS not initialized" without a root; otherwise stores the data under `<id>.gguf`, or rethrows a write failure after which a file created by `getFileHandle` is left empty and an existing file is left as it was |
| Opfs.OpfsManager.LoadModel | src/lib/utils/wllama.ts:127-141 | returns the file's bytes exactly when the root holds `<id>.gguf` and reading it does not reject, and null otherwise |
| Opfs.OpfsManager.HasModel | src/lib/utils/wllama.ts:143-155 | true exactly when `<id>.gguf` exists, whether or not it can be read |
| Opfs.OpfsManager.DeleteModel | src/lib/utils/wllama.ts:157-169 | removes `<id>.gguf`; without a root or without the file nothing changes |
| Opfs.OpfsManager.ListModels | src/lib/utils/wllama.ts:171-189 | the i-th name is the listed name of the i-th `.gguf` file the directory walk visits, each such file visited exactly once and no other file; empty without a root |
| Opfs.ListingCoversEachFileOnce | src/lib/utils/wllama.ts:171-189 | a listing has exactly as many names as there are `.gguf` files, and names every one of them |
| Opfs.FailedWriteLeavesFile | src/lib/utils/wllama.ts:114-124 | a write failing after the file handle exists leaves a new file empty and an existing file unchanged; one failing before changes nothing |
| Opfs.UnreadableFileLooksAbsent | src/lib/utils/wllama.ts:127-141 | a file whose read rejects loads as null; otherwise loading returns the stored bytes |
| Opfs.FileNameInjective | src/lib/utils/wllama.ts:115 | distinct ids name distinct files |
| Opfs.SaveThenLoad | src/lib/utils/wllama.ts:109-141 | what was saved is what is loaded, and other ids are unaffected |
| Opfs.DeleteThenLoad | src/lib/utils/wllama.ts:127-169 | after a delete the id loads as null, and other ids are unaffected |
| Opfs.UninitialisedStore | src/lib/utils/wllama.ts:109-169 | without a root, nothing loads and saves and deletes change nothing |
| Opfs.ListedNameRoundTrip | src/lib/utils/wllama.ts:180-182 | a saved id that contains no `.gguf` is listed under itself |
| Opfs.ListedNameFirstOccurrence | src/lib/utils/wllama.ts:180-182 | the file of id "a.ggufb" is listed as "ab.gguf" |
| Engine.AbortController.constructor | src/lib/utils/wllama.ts:233 | a new controller is not aborted |
| Engine.AbortController.Abort | src/lib/utils/wllama.ts:496-498 | after `abort()` the controller is aborted |
| Engine.Wllama.constructor | src/lib/utils/wllama.ts:357-367 | an instance holds the bytes and configuration it was loaded with and is live |
| Engine.Wllama.Exit | src/lib/utils/wllama.ts:489-495 | after `exit()` the instance is released |
| Engine.ThreadCountHalvesCores | src/lib/utils/wllama.ts:365 | the thread count is half the cores rounded down; it is zero exactly on a one-core (or absent) reading |
| Engine.TokenTrace | src/lib/utils/wllama.ts:465-469 | one `onToken` call per fragment |
| Engine.TokenTraceAt | src/lib/utils/wllama.ts:465-469 | the k-th `onToken` call gets the k-th fragment and fragments 0..k concatenated |
| Engine.TokenTextIsPrefix | src/lib/utils/wllama.ts:465-470 | the text seen by every `onToken` call is a prefix of the text the call resolves to |
| Manager.SetAt | src/lib/utils/wllama.ts:277 | `set(chunk, offset)` writes the chunk at the offset and leaves the rest of the buffer as it was |
| Manager.ReadChunks | src/lib/utils/wllama.ts:255-270 | the read loop collects every chunk in order, with `loaded` the sum of their lengths and one progress value per chunk |
| Manager.Assemble | src/lib/utils/wllama.ts:272-281 | the offset copy fills the buffer with the chunks concatenated in order |
| Manager.Accumulate | src/lib/utils/wllama.ts:464-471 | the streaming loop returns the fragments joined and makes one `onToken` call per fragment with the text so far |
| Manager.WllamaManager.constructor | src/lib/utils/wllama.ts:192-200 | a new manager has no session and no controller |
| Manager.WllamaManager.Initialize | src/lib/utils/wllama.ts:209-211 | initialises the content store and nothing else |
| Manager.Generation | src/lib/utils/wllama.ts:372-486 | refused with "No model loaded" and no request without an instance; otherwise one request on the instance for the prompt, streamed exactly when `stream` and `onToken` are both given, settling as the engine does, with one `onToken` call per fragment when streaming |
| Manager.TextGenerationAsWritten | src/lib/utils/wllama.ts:395-414 | as written, a streamed text generation settles to the empty string or the engine's failure, with the engine's `onToken` calls; every other case is as `Generation` |
| Manager.StreamedTextIsLost | src/lib/utils/wllama.ts:395-414 | as written, a streamed text generation whose engine produced text settles to "" although its last `onToken` call carried the whole text; the intended result is that text |
| Manager.FailedCacheWriteServedLater | src/lib/utils/wllama.ts:109-228 | after a cache write that failed once the file existed, the next download of that id returns 0 bytes as a complete cache hit without fetching |
| Manager.WllamaManager.DownloadModel | src/lib/utils/wllama.ts:213-302 | the imperative download settles, reports and stores exactly as `Download` says, reading the cache through `loadModel` (an unreadable file is a miss); a miss creates a fresh, live abort controller |
| Manager.WllamaManager.InitializeWllama | src/lib/utils/wllama.ts:350-370 | a fresh live instance with the bytes, `n_ctx` 2048, half the cores and no embeddings; otherwise the engine's failure |
| Manager.WllamaManager.LoadModel | src/lib/utils/wllama.ts:304-348 | releases the previous instance and controller; reports the download's progress values, then `processing` once the bytes are in; ends in the loaded record (complete at 100 percent) or the failed record carrying the error message |
| Manager.WllamaManager.TrackProgress | src/lib/utils/wllama.ts:323-326 | each download progress value is stored in the current record in turn, so the last one remains; the controller is untouched |
| Manager.WllamaManager.LoadEngine | src/lib/utils/wllama.ts:328-340 | a throwing engine leaves the failed record with its message; otherwise a fresh, live instance holding exactly the downloaded bytes with the fixed context size and the derived thread count, and the loaded record at 100 percent of the byte count |
| Manager.WllamaManager.RecordLoadError | src/lib/utils/wllama.ts:341-346 | the record keeps its model, stops loading, carries the error's message or "Unknown error", and shows an `error` progress value |
| Manager.WllamaManager.GenerateText | src/lib/utils/wllama.ts:372-429 | behaves as `Generation` on a text prompt, a streamed call settling to the streamed text as evidently intended |
| Manager.WllamaManager.GenerateTextAsWritten | src/lib/utils/wllama.ts:372-429 | the text branch as written: the walk over the resolved string adds nothing, so a streamed call settles as `TextGenerationAsWritten` |
| Manager.WllamaManager.GenerateChat | src/lib/utils/wllama.ts:431-486 | behaves as `Generation` on the conversation |
| Manager.WllamaManager.Cleanup | src/lib/utils/wllama.ts:488-503 | exits the instance, aborts and drops the controller, and forgets the session |
| Manager.WllamaManager.CancelDownload | src/lib/utils/wllama.ts:505-509 | aborts the controller, keeps it, and leaves the session as it was |
| Manager.WllamaManager.ListCachedModels | src/lib/utils/wllama.ts:515-517 | the listing of the content store |
| Manager.WllamaManager.DeleteCachedModel | src/lib/utils/wllama.ts:519-521 | deletes the file and leaves the loaded session alone and consistent |
| Manager.WllamaManager.GetModelSize | src/lib/utils/wllama.ts:523-530 | the cached file's byte length, or null when it is missing or cannot be read |
| Manager.GenerationGuard | src/lib/utils/wllama.ts:382-384 | without an instance: "No model loaded", no engine request, no `onToken` call, whatever the engine |
| Manager.GenerationDefaults | src/lib/utils/wllama.ts:385-391 | omitted options become 512 tokens, temperature 0.7, top-p 0.9, no streaming |
| Manager.StreamingMatchesBatch | src/lib/utils/wllama.ts:393-428 | streams exactly when `stream` and `onToken` are both given; the k-th call gets the text so far; the last call gets the resolved text; streaming and batch settle alike |
| ModelStore.Patched | src/lib/stores/model.ts:246-251 | each key the patch gives wins and every other setting is kept |
| ModelStore.IsModelCached | src/lib/stores/model.ts:277-280 | true exactly when some position of the listing holds the id |
| ModelStore.FindModel | src/lib/stores/model.ts:283-286 | the first catalog entry with the id, and undefined exactly when no entry has it |
| ModelStore.ResolvedOptions | src/lib/stores/model.ts:184-190 | each option the caller leaves out is taken from the settings, `stream` from `streamingEnabled`, and `onToken` is passed on |
| ModelStore.Store.constructor | src/lib/stores/model.ts:37-57 | the store starts from the initial state |
| ModelStore.Store.Initialize | src/lib/stores/model.ts:71-98 | as written, always ends in the `catch` block with the `ReferenceError` recorded and rethrown, after the listing was stored |
| ModelStore.Store.InitializeAutoLoad | src/lib/stores/model.ts:71-98 | as intended: opens the content store and records its listing; when auto-load is on and a model is remembered, reloads it with `loadModel`'s whole outcome (cache, released session, loaded or failed record), recording a failure with the "Failed to initialize" fallback and rethrowing it |
| ModelStore.Store.LoadModel | src/lib/stores/model.ts:101-143 | releases the previous session, caches as the download says; success copies the manager's loaded record and a fresh listing; failure records the message and leaves the store's previous model in place |
| ModelStore.Store.RelayProgress | src/lib/stores/model.ts:110-115 | each reported progress value is copied into the store in turn, leaving the last one |
| ModelStore.Store.SettleLoad | src/lib/stores/model.ts:117-142 | returns exactly when the manager's load succeeded; success copies the manager's record and a listing of the content store; failure records the message or "Failed to load model" and leaves the store's model in place |
| ModelStore.Store.RecordLoaded | src/lib/stores/model.ts:117-131 | the store's model becomes the manager's record, loading and progress are cleared, and the listing is one of the content store's `.gguf` files |
| ModelStore.Store.RecordFailure | src/lib/stores/model.ts:133-141 | the error's message, or the fallback when the thrown value is not an `Error`, is recorded, loading stops and progress is cleared; nothing else in the store changes |
| ModelStore.Store.UnloadModel | src/lib/stores/model.ts:146-156 | releases the session and forgets the model in both the manager and the store |
| ModelStore.Store.CancelDownload | src/lib/stores/model.ts:159-170 | aborts the controller and clears the loading flag and progress |
| ModelStore.Store.GenerateText | src/lib/stores/model.ts:173-193 | generation with options resolved against the settings |
| ModelStore.Store.GenerateChat | src/lib/stores/model.ts:196-216 | chat generation with options resolved against the settings |
| ModelStore.Store.DeleteCachedModel | src/lib/stores/model.ts:219-243 | deletes the file and refreshes the listing; unloads (releasing the instance and aborting the controller) exactly when the deleted id is the store's current model; the session stays consistent |
| ModelStore.Store.UpdateSettings | src/lib/stores/model.ts:246-251 | only the settings change, by the patch |
| ModelStore.Store.ClearError | src/lib/stores/model.ts:254-256 | only the error is cleared |
| ModelStore.Store.RefreshCachedModels | src/lib/stores/model.ts:259-269 | only the listing changes, to the content store's listing |
| ModelStore.Store.GetModelSize | src/lib/stores/model.ts:272-274 | the cached byte length, or null when the file is missing or cannot be read |
| ModelStore.InitialStateDefaults | src/lib/stores/model.ts:37-52 | the catalog, nothing loaded or cached, auto-load and streaming on, 512 / 0.7 / 0.9 |
| ModelStore.PatchLaws | src/lib/stores/model.ts:246-251 | an empty patch is the identity, patching is idempotent, and two patches compose into their right-biased merge |
| ModelStore.CatalogLookup | src/lib/stores/model.ts:283-286 | every catalog entry is found by its id |
| ModelStore.CatalogMissing | src/lib/stores/model.ts:283-286 | an id no catalog entry has finds nothing |
| ModelStore.FindDistinct | src/lib/stores/model.ts:283-286 | when no other entry shares an entry's id, `find` by that id returns the entry |
| ModelStore.StoreDefaultsStream | src/lib/stores/model.ts:184-192 | with default settings, the store's call matches the manager's defaults except that it streams whenever `onToken` is given |
| ModelStore.CachedAfterRefresh | src/lib/stores/model.ts:277-280 | after a refresh, `isModelCached` holds for every cached model whose id contains no `.gguf` |
| ChatStore.Capped | src/lib/stores/ai.ts:69-81 | the new message is last; the list is `min(n + 1, max)` long and a suffix of old + new; a cap of zero or less empties it |
| ChatStore.WithoutId | src/lib/stores/ai.ts:94-99 | no message with the id remains, and every other message does |
| ChatStore.WithoutIdSingle | src/lib/stores/ai.ts:97 | a single message survives exactly when its id differs |
| ChatStore.WithoutIdKeepsOrder | src/lib/stores/ai.ts:97 | filtering a concatenation concatenates the filtered parts, so the survivors keep their order |
| ChatStore.WithContent | src/lib/stores/ai.ts:102-109 | messages with the id get the new content, and all others stay as they were |
| ChatStore.PatchedSettings | src/lib/stores/ai.ts:258-263 | each key the patch gives wins and every other setting is kept |
| ChatStore.ChatPatchLaws | src/lib/stores/ai.ts:258-263 | an empty patch is the identity and patching is idempotent |
| ChatStore.ChatMessages | src/lib/stores/ai.ts:193-198 | the history as (role, content) pairs, in order |
| ChatStore.CountRole | src/lib/stores/ai.ts:316-317 | a role count never exceeds the message count |
| ChatStore.CountRoleAppend | src/lib/stores/ai.ts:316-317 | counting the messages of a role with `filter(...).length` adds up over concatenated histories |
| ChatStore.CountRoleSingle | src/lib/stores/ai.ts:316-317 | a single message counts once for its own role and not at all for any other |
| ChatStore.TotalCharactersAppend | src/lib/stores/ai.ts:318 | the summed content lengths add up over concatenated histories |
| ChatStore.TotalCharactersSingle | src/lib/stores/ai.ts:318 | a single message contributes the length of its content |
| ChatStore.ConversationStats | src/lib/stores/ai.ts:313-327 | one count per message; the user and assistant counts are the role counts, which together never exceed it; the character total is the summed content lengths; the average is that total over the message count rounded half up, within one half of the exact quotient; an empty history has all-zero statistics |
| ChatStore.Store.constructor | src/lib/stores/ai.ts:35-50 | the store starts empty with cap 100 |
| ChatStore.Store.AddMessage | src/lib/stores/ai.ts:61-82 | appends under the cap |
| ChatStore.Store.ClearMessages | src/lib/stores/ai.ts:85-91 | empties the history and forgets the conversation id |
| ChatStore.Store.RemoveMessage | src/lib/stores/ai.ts:94-99 | filters the id out |
| ChatStore.Store.UpdateMessage | src/lib/stores/ai.ts:102-109 | rewrites the content of messages with the id |
| ChatStore.Store.UpdateSettings | src/lib/stores/ai.ts:258-263 | only the settings change, by the patch |
| ChatStore.Store.StartNewConversation | src/lib/stores/ai.ts:266-272 | empties the history under a fresh conversation id |
| ChatStore.Store.GetConversationStats | src/lib/stores/ai.ts:306-328 | the statistics of the current history: role counts, character total and rounded average as `ConversationStats` states them; the store is unchanged |
| ChatStore.Store.GenerateResponse | src/lib/stores/ai.ts:112-180 | refuses with state unchanged unless the store shows a loaded model; otherwise records the prompt, then the reply or "Error: …", clears the generation state, and settles as the model store's generation |
| ChatStore.Store.GenerateChatResponse | src/lib/stores/ai.ts:183-255 | the same over the whole history, without a new user message |
| ChatStore.ResponseStreamsOnRequest | src/lib/stores/ai.ts:135-153 | a chat action streams exactly when it is given both `stream: true` and `onToken`, with the store's budget and sampling |
| ChatStore.ExchangeKept | src/lib/stores/ai.ts:61-82 | with a cap of two or more, a prompt and its reply end the history in order, within the cap, even when a lowered cap left the history longer than it |
| ChatStore.WithoutIdLaws | src/lib/stores/ai.ts:94-99 | removal is idempotent and leaves a history without the id unchanged |
| ChatStore.RemoveUndoesAdd | src/lib/stores/ai.ts:61-99 | removing a message just appended under a fresh id restores the history |
| ChatStore.UpdateLaws | src/lib/stores/ai.ts:102-109 | an update keeps ids, roles, timestamps and length, and is idempotent |
| ChatStore.RolesPartition | src/lib/stores/ai.ts:316-322 | user, assistant and system counts add up to the total |
| ChatStore.RoundedAverageBounds | src/lib/stores/ai.ts:319-326 | `Math.round(total / count)` lies within one half of the exact quotient |

## Left out

- Browser and engine I/O are inputs, not code: `fetch` and stream readers, OPFS handles, `@wllama/wllama` and `TextDecoder`. Decoded fragments are given strings.
- Manager.WllamaManager.GenerateText: models the evidently intended streamed result (see Findings). That `createCompletion` resolves to the finished string when `stream: true` is not passed is the engine library's documented behaviour, which is not part of this model.
- Manager.WllamaManager.GenerateText: the text-streaming `onToken` calls come from the engine's `onNewToken` with the engine's `currentText`. The model takes that text to be the fragments received so far.
- Concurrency and interleaving are not modelled: every `async` action runs to completion before the next starts. A `cancelDownload` therefore aborts the controller of the last download rather than one in flight. An abort mid-download is modelled as the fetch or the read failing with an `AbortError`.
- ChatStore.Store.GenerateResponse: the intermediate "Generated N characters..." progress text is not modelled; the final state (empty progress text) is.
- Singletons (`getInstance`) are modelled as objects passed to constructors. Console logging is left out.
- The `Wllama` constructor's WASM path configuration and the `Blob` wrapping are left out.
- The errors `exit()` may throw in `cleanup` are caught and logged, so they are not modelled.
- `percentage` is an exact rational, not a double.
- `getConversationStats` computes its average exactly; the double division before `Math.round` is not modelled.
- String lengths count Unicode scalar values, not UTF-16 code units.
- Integers are unbounded: `maxHistoryLength` is an integer, and a fractional cap (which `splice` truncates) is not modelled.
- A `content-length` header that does not parse (`NaN`) is not modelled. The header is absent, or a natural number.
- Sub-directories inside `models/` are not modelled; the directory is a map from file name to bytes.
- Persistence to `localStorage` (`svelte-persisted-store`) and the derived stores are left out. They hold no logic of their own.
- `exportConversation` and `importConversation` (JSON serialisation) are left out: JSON text formatting and parsing are outside the model.
- `formatModelSize` and `formatNumber` (display formatting with logarithms and `Intl`) are left out.
- `getCurrentModel()` is read as the manager's `currentModel` field.
- Store actions whose `catch` blocks are unreachable are modelled without them: `unloadModel`, `cancelDownload`, `deleteCachedModel` and `refreshCachedModels` call nothing that throws.
- src/lib/utils/ai.ts and src/lib/utils/markdown.ts are not part of this model.

## Findings

| source | as written | input that shows it | evidently intended | confidence | as-written member | corrected member |
|---|---|---|---|---|---|---|
| src/lib/utils/wllama.ts:395-414 | the text-streaming branch does not pass `stream: true`, so `createCompletion` resolves to the finished string; the `for await` walks its characters, whose `piece` is undefined and decodes to "", so the call settles to "" and `generateResponse` (src/lib/stores/ai.ts:137-156) records an empty assistant reply | a loaded model, `stream: true` with an `onToken` callback, an engine producing "Hi" | settle to the generated text, as the chat branch (453-471) does | medium; not executed; rests on the engine library's return type | Manager.TextGenerationAsWritten | Manager.WllamaManager.GenerateText |
| src/lib/stores/model.ts:86-88 | the auto-load check reads `state`, which is not declared in the module, so `initialize()` always ends in its `catch` with a `ReferenceError` ("state is not defined") that it records and rethrows | any call of `initialize()`, such as the one at module load | read the store's current value (`get(modelStore)`) and reload the remembered model when `autoLoadLastModel` is on | high; not executed | ModelStore.Store.Initialize | ModelStore.Store.InitializeAutoLoad |
