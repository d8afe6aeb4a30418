/** The collaborators `WllamaManager` drives in src/lib/utils/wllama.ts, reduced to what the
    manager observes: the `AbortController` of a download, the `Wllama` engine handle (loaded from
    model bytes with a configuration, released by `exit`), and the requests and completions of
    text and chat generation. The engine's numerics are a black box: a completion is given as
    the text fragments it produces, possibly followed by a failure. */
module Engine {
  import opened Js
  import opened Catalog

  /** The `AbortController` whose signal `fetch` watches. */
  class AbortController {
    var aborted: bool

    constructor ()
      ensures !aborted
    {
      aborted := false;
    }

    /** `abort()` */
    method Abort()
      modifies this
      ensures aborted
    {
      aborted := true;
    }
  }

  /** The options `initializeWllama` passes to `wllama.loadModel`. */
  datatype LoadConfig = LoadConfig(nCtx: nat, nThreads: nat, embeddings: bool)

  /** `n_ctx` */
  const ContextSize: nat := 2048

  /** `navigator.hardwareConcurrency || 1`: an absent or zero reading counts as one core. */
  function Concurrency(hardwareConcurrency: Option<nat>): nat {
    if hardwareConcurrency.None? || hardwareConcurrency.value == 0 then 1 else hardwareConcurrency.value
  }

  /** `Math.floor((navigator.hardwareConcurrency || 1) / 2)` */
  function ThreadCount(hardwareConcurrency: Option<nat>): nat {
    Concurrency(hardwareConcurrency) / 2
  }

  /** The thread count is half the cores, rounded down: it is zero exactly on a one-core reading
      (an absent or zero reading included), so the source does not enforce a minimum of one thread. */
  lemma ThreadCountHalvesCores(hardwareConcurrency: Option<nat>)
    ensures 2 * ThreadCount(hardwareConcurrency) <= Concurrency(hardwareConcurrency) <= 2 * ThreadCount(hardwareConcurrency) + 1
    ensures ThreadCount(hardwareConcurrency) == 0 <==> Concurrency(hardwareConcurrency) == 1
    ensures ThreadCount(None) == 0 && ThreadCount(Some(0)) == 0 && ThreadCount(Some(1)) == 0
    ensures ThreadCount(Some(8)) == 4
  {
  }

  /** A loaded `Wllama` instance: the model bytes it was loaded from, its configuration, and whether
      `exit()` has released it. */
  class Wllama {
    const modelBytes: seq<byte>
    const config: LoadConfig
    var exited: bool

    constructor (modelBytes: seq<byte>, config: LoadConfig)
      ensures this.modelBytes == modelBytes && this.config == config && !exited
    {
      this.modelBytes := modelBytes;
      this.config := config;
      exited := false;
    }

    /** `exit()`: releases the engine's resources. */
    method Exit()
      modifies this
      ensures exited
    {
      exited := true;
    }
  }

  /** A chat message's role. */
  datatype Role = User | Assistant | System

  /** `WllamaChatMessage`: the (role, content) pair the engine receives. */
  datatype ChatMessage = ChatMessage(role: Role, content: string)

  /** What is to be completed: a text prompt (`createCompletion`) or a conversation (`createChatCompletion`). */
  datatype Prompt = TextPrompt(text: string) | ChatPrompt(messages: seq<ChatMessage>)

  /** `sampling: { temp, top_p }`; both are passed through untouched. */
  datatype Sampling = Sampling(temp: real, topP: real)

  /** One call into the engine: the handle it is made on, the prompt, `nPredict`, the sampling
      parameters, and whether fragments are to be streamed back. */
  datatype Request = Request(handle: Wllama, prompt: Prompt, nPredict: int, sampling: Sampling, streaming: bool)

  /** What the engine produces for a request: its text fragments in order, then possibly a failure. */
  datatype Completion = Completion(pieces: seq<string>, failure: Option<Thrown>)

  /** The fragments joined in order. */
  function Joined(pieces: seq<string>): string {
    if pieces == [] then "" else Joined(pieces[..|pieces| - 1]) + pieces[|pieces| - 1]
  }

  /** The `onToken(fragment, fullTextSoFar)` calls a stream of fragments gives rise to, in arrival order. */
  function TokenTrace(pieces: seq<string>): (r: seq<(string, string)>)
    ensures |r| == |pieces|
  {
    if pieces == [] then []
    else TokenTrace(pieces[..|pieces| - 1]) + [(pieces[|pieces| - 1], Joined(pieces))]
  }

  /** What the promise of a generation call settles to: the whole text, or the engine's failure. */
  function Settled(c: Completion): Result<string> {
    if c.failure.Some? then Err(c.failure.value) else Ok(Joined(c.pieces))
  }

  /** The k-th `onToken` call receives the k-th fragment and the concatenation of fragments 0..k. */
  lemma {:induction false} TokenTraceAt(pieces: seq<string>, k: nat)
    requires k < |pieces|
    ensures TokenTrace(pieces)[k] == (pieces[k], Joined(pieces[..k + 1]))
    decreases |pieces|
  {
    var init := pieces[..|pieces| - 1];
    if k < |pieces| - 1 {
      assert init[..k + 1] == pieces[..k + 1];
      assert init[k] == pieces[k];
      TokenTraceAt(init, k);
    } else {
      assert pieces[..k + 1] == pieces;
    }
  }

  /** Every fragment's text is contained, in order, in the final text: the text seen by the
      k-th callback is a prefix of the value the generation resolves to. */
  lemma {:induction false} TokenTextIsPrefix(pieces: seq<string>, k: nat)
    requires k < |pieces|
    ensures Joined(pieces[..k + 1]) <= Joined(pieces)
    decreases |pieces|
  {
    if k + 1 < |pieces| {
      var init := pieces[..|pieces| - 1];
      assert init[..k + 1] == pieces[..k + 1];
      TokenTextIsPrefix(init, k);
    } else {
      assert pieces[..k + 1] == pieces;
    }
  }
}
