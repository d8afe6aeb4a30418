/** `aiStore` and `aiActions` of src/lib/stores/ai.ts: the conversation the chat UI shows, with its
    capped history, and the actions that ask the model store for replies. `crypto.randomUUID()` and
    `new Date()` are parameters of the actions that call them. */
module ChatStore {
  import opened Js
  import opened Engine
  import opened Manager
  import ModelStore

  /** `Message`; the timestamp is the `Date`'s time value. */
  datatype Message = Message(id: string, role: Role, content: string, timestamp: int)

  /** `AIState['settings']` */
  datatype ChatSettings = ChatSettings(maxHistoryLength: int, autoScroll: bool, showTimestamps: bool)

  /** `Partial<AIState['settings']>` */
  datatype ChatSettingsPatch = ChatSettingsPatch(maxHistoryLength: Option<int>, autoScroll: Option<bool>, showTimestamps: Option<bool>)

  /** `AIState` */
  datatype AIState = AIState(
    messages: seq<Message>,
    currentConversationId: Option<string>,
    isGenerating: bool,
    generationProgress: string,
    settings: ChatSettings)

  /** `initialState` */
  const InitialState: AIState := AIState([], None, false, "", ChatSettings(100, true, true))

  const NoModelMessage: string := "No model loaded. Please select and load a model first."

  /** The message list after `addMessage`: `m` appended, then `splice(0, length - max)` when the list
      is longer than `max`. `splice` clamps its count to the length, so a cap of zero or less empties it. */
  function Capped(messages: seq<Message>, m: Message, max: int): (r: seq<Message>)
    ensures max <= 0 ==> r == []
    ensures max > 0 ==> |r| == if |messages| + 1 <= max then |messages| + 1 else max
    ensures max > 0 ==> r[|r| - 1] == m
    ensures r == (messages + [m])[|messages| + 1 - |r|..]
  {
    var appended := messages + [m];
    if |appended| > max then
      appended[if |appended| - max <= |appended| then |appended| - max else |appended|..]
    else appended
  }

  /** `addMessage(content, role)` as an updater. */
  function WithMessage(state: AIState, m: Message): AIState {
    state.(messages := Capped(state.messages, m, state.settings.maxHistoryLength))
  }

  /** `messages.filter(msg => msg.id !== id)` */
  function WithoutId(messages: seq<Message>, id: string): (r: seq<Message>)
    ensures |r| <= |messages|
    ensures forall k :: 0 <= k < |r| ==> r[k].id != id && r[k] in messages
    ensures forall m {:trigger m in r} :: m in messages && m.id != id ==> m in r
  {
    if messages == [] then []
    else
      var init := WithoutId(messages[..|messages| - 1], id);
      var last := messages[|messages| - 1];
      assert forall m :: m in messages[..|messages| - 1] ==> m in messages;
      assert forall m :: m in messages ==> m in messages[..|messages| - 1] || m == last;
      if last.id == id then init else init + [last]
  }

  /** `messages.map(msg => msg.id === id ? { ...msg, content } : msg)` */
  function WithContent(messages: seq<Message>, id: string, content: string): (r: seq<Message>)
    ensures |r| == |messages|
    ensures forall k :: 0 <= k < |r| ==>
              r[k] == if messages[k].id == id then messages[k].(content := content) else messages[k]
  {
    seq(|messages|, k requires 0 <= k < |messages| =>
      if messages[k].id == id then messages[k].(content := content) else messages[k])
  }

  /** `{ ...state.settings, ...settings }`: each key the patch gives wins, every other key is kept. */
  function PatchedSettings(s: ChatSettings, p: ChatSettingsPatch): (r: ChatSettings)
    ensures r.maxHistoryLength == if p.maxHistoryLength.Some? then p.maxHistoryLength.value else s.maxHistoryLength
    ensures r.autoScroll == if p.autoScroll.Some? then p.autoScroll.value else s.autoScroll
    ensures r.showTimestamps == if p.showTimestamps.Some? then p.showTimestamps.value else s.showTimestamps
  {
    ChatSettings(p.maxHistoryLength.GetOr(s.maxHistoryLength), p.autoScroll.GetOr(s.autoScroll), p.showTimestamps.GetOr(s.showTimestamps))
  }

  /** `currentState.messages.map(msg => ({ role, content }))` */
  function ChatMessages(messages: seq<Message>): (r: seq<ChatMessage>)
    ensures |r| == |messages|
    ensures forall k :: 0 <= k < |r| ==> r[k].role == messages[k].role && r[k].content == messages[k].content
  {
    seq(|messages|, k requires 0 <= k < |messages| => ChatMessage(messages[k].role, messages[k].content))
  }

  /** The text of the assistant message that records a generation's outcome. */
  function ReplyText(r: Result<string>): string {
    if r.Ok? then r.value else "Error: " + MessageOr(r.error, "An error occurred")
  }

  /** The number of messages with the given role. */
  function CountRole(messages: seq<Message>, role: Role): (n: nat)
    ensures n <= |messages|
  {
    if messages == [] then 0
    else CountRole(messages[..|messages| - 1], role) + (if messages[|messages| - 1].role == role then 1 else 0)
  }

  /** The sum of the content lengths. */
  function TotalCharacters(messages: seq<Message>): nat {
    if messages == [] then 0
    else TotalCharacters(messages[..|messages| - 1]) + |messages[|messages| - 1].content|
  }

  /** The result of `getConversationStats()`. */
  datatype Stats = Stats(totalMessages: nat, userMessages: nat, assistantMessages: nat, totalCharacters: nat, averageMessageLength: nat)

  /** `Math.round(total / count)` for a non-negative quotient: half-way cases round up. */
  function RoundedAverage(total: nat, count: nat): nat {
    if count == 0 then 0 else (2 * total + count) / (2 * count)
  }

  /** `getConversationStats()` of a message list: one count per message, the user and assistant
      counts (which never exceed it), the summed content lengths, and the average length rounded to
      the nearest integer (half up); an empty list has all-zero statistics. */
  function ConversationStats(messages: seq<Message>): (s: Stats)
    ensures s.totalMessages == |messages|
    ensures s.userMessages == CountRole(messages, User)
    ensures s.assistantMessages == CountRole(messages, Assistant)
    ensures s.totalCharacters == TotalCharacters(messages)
    ensures s.averageMessageLength == RoundedAverage(s.totalCharacters, |messages|)
    ensures s.userMessages + s.assistantMessages <= s.totalMessages
    ensures messages == [] ==> s == Stats(0, 0, 0, 0, 0)
    ensures messages != [] ==>
      && 2 * s.totalCharacters <= (2 * s.averageMessageLength + 1) * s.totalMessages
      && (2 * s.averageMessageLength - 1) * s.totalMessages <= 2 * s.totalCharacters
  {
    var total := TotalCharacters(messages);
    RolesPartition(messages);
    RoundedAverageBounds(total, |messages|);
    Stats(|messages|, CountRole(messages, User), CountRole(messages, Assistant), total, RoundedAverage(total, |messages|))
  }

  class Store {
    var state: AIState
    const models: ModelStore.Store

    constructor (models: ModelStore.Store)
      ensures this.models == models && state == InitialState
    {
      this.models := models;
      state := InitialState;
    }

    /** `addMessage(content, role)` with the id and the time drawn by the caller. */
    method AddMessage(content: string, role: Role, id: string, time: int)
      modifies this
      ensures state == WithMessage(old(state), Message(id, role, content, time))
    {
      state := WithMessage(state, Message(id, role, content, time));
    }

    /** `clearMessages()` */
    method ClearMessages()
      modifies this
      ensures state == old(state).(messages := [], currentConversationId := None)
    {
      state := state.(messages := [], currentConversationId := None);
    }

    /** `removeMessage(id)` */
    method RemoveMessage(id: string)
      modifies this
      ensures state == old(state).(messages := WithoutId(old(state.messages), id))
    {
      state := state.(messages := WithoutId(state.messages, id));
    }

    /** `updateMessage(id, content)` */
    method UpdateMessage(id: string, content: string)
      modifies this
      ensures state == old(state).(messages := WithContent(old(state.messages), id, content))
    {
      state := state.(messages := WithContent(state.messages, id, content));
    }

    /** `updateSettings(settings)` */
    method UpdateSettings(p: ChatSettingsPatch)
      modifies this
      ensures state == old(state).(settings := PatchedSettings(old(state.settings), p))
    {
      state := state.(settings := PatchedSettings(state.settings, p));
    }

    /** `startNewConversation()` with the fresh id drawn by the caller. */
    method StartNewConversation(newId: string)
      modifies this
      ensures state == old(state).(messages := [], currentConversationId := Some(newId))
    {
      state := state.(messages := [], currentConversationId := Some(newId));
    }

    /** `getConversationStats()` */
    method GetConversationStats() returns (s: Stats)
      ensures s == ConversationStats(state.messages)
    {
      s := ConversationStats(state.messages);
    }

    /** `generateResponse(prompt, options)`: refuses unless the model store shows a loaded model;
        otherwise records the prompt, asks `generateText` (streaming only when both `stream` and
        `onToken` are given, else with no options at all), records the reply or the error as an
        assistant message, and clears the generation state. */
    method GenerateResponse(prompt: string, stream: Option<bool>, onToken: bool, engine: Request -> Completion,
                            promptId: string, promptTime: int, replyId: string, replyTime: int)
      returns (r: Result<string>, g: Generated)
      modifies this
      ensures !(models.state.currentModel.Some? && models.state.currentModel.value.isLoaded) ==>
                r == Err(NewError(NoModelMessage)) && g.request.None? && state == old(state)
      ensures models.state.currentModel.Some? && models.state.currentModel.value.isLoaded ==>
                && g == Generation(models.manager.currentModel, TextPrompt(prompt), ResponseOptions(models.state.settings, stream, onToken), engine)
                && r == g.result
                && state == WithMessage(WithMessage(old(state), Message(promptId, User, prompt, promptTime)),
                                        Message(replyId, Assistant, ReplyText(r), replyTime)).(isGenerating := false, generationProgress := "")
    {
      if !(models.state.currentModel.Some? && models.state.currentModel.value.isLoaded) {
        r := Err(NewError(NoModelMessage));
        g := Generated(r, None, []);
        return;
      }
      AddMessage(prompt, User, promptId, promptTime);
      state := state.(isGenerating := true, generationProgress := "Generating response...");
      if stream == Some(true) && onToken {
        g := models.GenerateText(prompt, None, None, None, Some(true), true, engine);
      } else {
        g := models.GenerateText(prompt, None, None, None, None, false, engine);
      }
      r := g.result;
      if r.Ok? {
        AddMessage(r.value, Assistant, replyId, replyTime);
        state := state.(isGenerating := false, generationProgress := "");
      } else {
        state := state.(isGenerating := false, generationProgress := "");
        AddMessage("Error: " + MessageOr(r.error, "An error occurred"), Assistant, replyId, replyTime);
      }
    }

    /** `generateChatResponse(options)`: like `generateResponse`, but sends the whole history (no new
        user message) through `generateChat`. */
    method GenerateChatResponse(stream: Option<bool>, onToken: bool, engine: Request -> Completion, replyId: string, replyTime: int)
      returns (r: Result<string>, g: Generated)
      modifies this
      ensures !(models.state.currentModel.Some? && models.state.currentModel.value.isLoaded) ==>
                r == Err(NewError(NoModelMessage)) && g.request.None? && state == old(state)
      ensures models.state.currentModel.Some? && models.state.currentModel.value.isLoaded ==>
                && g == Generation(models.manager.currentModel, ChatPrompt(ChatMessages(old(state.messages))),
                                   ResponseOptions(models.state.settings, stream, onToken), engine)
                && r == g.result
                && state == WithMessage(old(state), Message(replyId, Assistant, ReplyText(r), replyTime))
                                        .(isGenerating := false, generationProgress := "")
    {
      if !(models.state.currentModel.Some? && models.state.currentModel.value.isLoaded) {
        r := Err(NewError(NoModelMessage));
        g := Generated(r, None, []);
        return;
      }
      var chatMessages := ChatMessages(state.messages);
      state := state.(isGenerating := true, generationProgress := "Generating chat response...");
      if stream == Some(true) && onToken {
        g := models.GenerateChat(chatMessages, None, None, None, Some(true), true, engine);
      } else {
        g := models.GenerateChat(chatMessages, None, None, None, None, false, engine);
      }
      r := g.result;
      if r.Ok? {
        AddMessage(r.value, Assistant, replyId, replyTime);
        state := state.(isGenerating := false, generationProgress := "");
      } else {
        state := state.(isGenerating := false, generationProgress := "");
        AddMessage("Error: " + MessageOr(r.error, "An error occurred"), Assistant, replyId, replyTime);
      }
    }
  }

  /** The options a chat action hands the model store: `{ stream: true, onToken }` when both are
      given, otherwise none, each then resolved against the model store's settings. */
  function ResponseOptions(settings: ModelStore.Settings, stream: Option<bool>, onToken: bool): GenerateOptions {
    if stream == Some(true) && onToken then ModelStore.ResolvedOptions(settings, None, None, None, Some(true), true)
    else ModelStore.ResolvedOptions(settings, None, None, None, None, false)
  }

  // ---------------------------------------------------------------------------
  // Lemmas

  /** A chat action streams exactly when the caller passes both `stream: true` and `onToken`, whatever
      the model store's `streamingEnabled` says, and always asks with the store's token budget and sampling. */
  lemma ResponseStreamsOnRequest(current: Option<ModelState>, prompt: Prompt, settings: ModelStore.Settings,
                                 stream: Option<bool>, onToken: bool, engine: Request -> Completion)
    requires current.Some? && current.value.instance.Some?
    ensures var q := Generation(current, prompt, ResponseOptions(settings, stream, onToken), engine).request.value;
      && (q.streaming <==> stream == Some(true) && onToken)
      && q.nPredict == settings.maxTokens
      && q.sampling == Sampling(settings.temperature, settings.topP)
  {
  }

  /** Adding messages never leaves more than the cap (when the cap is positive), even when a lowered
      cap left the list longer, and a prompt followed by its reply both survive a cap of two or more,
      in order, at the end of the list. */
  lemma ExchangeKept(messages: seq<Message>, prompt: Message, reply: Message, max: int)
    requires max >= 2
    ensures var after := Capped(Capped(messages, prompt, max), reply, max);
      && |after| <= max
      && after[|after| - 2] == prompt
      && after[|after| - 1] == reply
  {
    var once := Capped(messages, prompt, max);
    var twice := Capped(once, reply, max);
    assert twice == (once + [reply])[|once| + 1 - |twice|..];
    assert twice[|twice| - 2] == (once + [reply])[|once| - 1];
  }

  /** Filtering out an id that no message has keeps the list as it was. */
  lemma {:induction false} WithoutIdAbsent(messages: seq<Message>, id: string)
    requires forall k :: 0 <= k < |messages| ==> messages[k].id != id
    ensures WithoutId(messages, id) == messages
    decreases |messages|
  {
    if messages != [] {
      var init, last := messages[..|messages| - 1], messages[|messages| - 1];
      assert last.id != id;
      WithoutIdAbsent(init, id);
      assert WithoutId(messages, id) == WithoutId(init, id) + [last];
      assert messages == init + [last];
    }
  }

  /** Removing by id is idempotent and leaves a list without that id as it was. */
  lemma WithoutIdLaws(messages: seq<Message>, id: string)
    ensures WithoutId(WithoutId(messages, id), id) == WithoutId(messages, id)
    ensures (forall k :: 0 <= k < |messages| ==> messages[k].id != id) ==> WithoutId(messages, id) == messages
  {
    WithoutIdAbsent(WithoutId(messages, id), id);
    if forall k :: 0 <= k < |messages| ==> messages[k].id != id {
      WithoutIdAbsent(messages, id);
    }
  }

  /** A single message survives the filter exactly when its id differs. */
  lemma WithoutIdSingle(m: Message, id: string)
    ensures WithoutId([m], id) == if m.id == id then [] else [m]
  {
    assert [m][..0] == [];
  }

  /** One step of the filter: the filtered prefix, then the last message if it survives. */
  lemma WithoutIdStep(s: seq<Message>, id: string)
    requires s != []
    ensures WithoutId(s, id) == WithoutId(s[..|s| - 1], id) + (if s[|s| - 1].id == id then [] else [s[|s| - 1]])
  {
  }

  /** Filtering keeps the order: filtering a concatenation concatenates the filtered parts, so with
      `WithoutIdSingle` the result is each message in turn, kept or dropped. */
  lemma {:induction false} WithoutIdKeepsOrder(a: seq<Message>, b: seq<Message>, id: string)
    ensures WithoutId(a + b, id) == WithoutId(a, id) + WithoutId(b, id)
    decreases |b|
  {
    if b == [] {
      assert a + b == a;
    } else {
      var init := b[..|b| - 1];
      var last := b[|b| - 1];
      var tail := if last.id == id then [] else [last];
      var ab := a + b;
      assert ab[..|ab| - 1] == a + init;
      assert ab[|ab| - 1] == last;
      WithoutIdStep(ab, id);
      WithoutIdStep(b, id);
      WithoutIdKeepsOrder(a, init, id);
      var front, rest := WithoutId(a, id), WithoutId(init, id);
      assert (front + rest) + tail == front + (rest + tail);
    }
  }

  /** Removing a message that was just added with a fresh id undoes the addition (below the cap). */
  lemma {:induction false} RemoveUndoesAdd(messages: seq<Message>, m: Message)
    requires forall k :: 0 <= k < |messages| ==> messages[k].id != m.id
    ensures WithoutId(messages + [m], m.id) == messages
  {
    assert (messages + [m])[..|messages|] == messages;
    WithoutIdLaws(messages, m.id);
  }

  /** Updating a message's content keeps every id, role and timestamp and the number of messages, and
      doing it twice is doing it once. */
  lemma UpdateLaws(messages: seq<Message>, id: string, content: string)
    ensures var r := WithContent(messages, id, content);
      && (forall k :: 0 <= k < |r| ==> r[k].id == messages[k].id && r[k].role == messages[k].role && r[k].timestamp == messages[k].timestamp)
      && WithContent(r, id, content) == r
  {
  }

  /** User and assistant messages never outnumber all messages, and together with the system
      messages they make up the whole. */
  lemma {:induction false} RolesPartition(messages: seq<Message>)
    ensures CountRole(messages, User) + CountRole(messages, Assistant) + CountRole(messages, System) == |messages|
    decreases |messages|
  {
    if messages != [] {
      RolesPartition(messages[..|messages| - 1]);
    }
  }

  /** A role count is additive over concatenation: `filter(...).length` counts each part separately. */
  lemma {:induction false} CountRoleAppend(a: seq<Message>, b: seq<Message>, role: Role)
    ensures CountRole(a + b, role) == CountRole(a, role) + CountRole(b, role)
    decreases |b|
  {
    if b == [] {
      assert a + b == a;
    } else {
      var init := b[..|b| - 1];
      CountRoleAppend(a, init, role);
      assert (a + b)[..|a + b| - 1] == a + init;
      assert (a + b)[|a + b| - 1] == b[|b| - 1];
    }
  }

  /** A single message counts once for its own role and not at all for the others. */
  lemma CountRoleSingle(m: Message, role: Role)
    ensures CountRole([m], role) == if m.role == role then 1 else 0
  {
    assert [m][..0] == [];
  }

  /** The character total is additive over concatenation. */
  lemma {:induction false} TotalCharactersAppend(a: seq<Message>, b: seq<Message>)
    ensures TotalCharacters(a + b) == TotalCharacters(a) + TotalCharacters(b)
    decreases |b|
  {
    if b == [] {
      assert a + b == a;
    } else {
      var init := b[..|b| - 1];
      TotalCharactersAppend(a, init);
      assert (a + b)[..|a + b| - 1] == a + init;
      assert (a + b)[|a + b| - 1] == b[|b| - 1];
    }
  }

  /** A single message contributes the length of its content. */
  lemma TotalCharactersSingle(m: Message)
    ensures TotalCharacters([m]) == |m.content|
  {
    assert [m][..0] == [];
  }

  /** `RoundedAverage(t, n)` is `t / n` rounded to the nearest integer, half up: within half of the
      exact quotient, from below inclusive. */
  lemma RoundedAverageBounds(t: nat, n: nat)
    ensures n > 0 ==>
      && 2 * t <= (2 * RoundedAverage(t, n) + 1) * n
      && (2 * RoundedAverage(t, n) - 1) * n <= 2 * t
  {
    if n > 0 {
      var a := RoundedAverage(t, n);
      assert a == (2 * t + n) / (2 * n);
      var rem := (2 * t + n) % (2 * n);
      assert 2 * t + n == a * (2 * n) + rem && 0 <= rem < 2 * n;
    }
  }

  /** Settings patches are a right-biased merge: an empty patch changes nothing and applying a patch
      twice acts once. */
  lemma ChatPatchLaws(s: ChatSettings, p: ChatSettingsPatch)
    ensures PatchedSettings(s, ChatSettingsPatch(None, None, None)) == s
    ensures PatchedSettings(PatchedSettings(s, p), p) == PatchedSettings(s, p)
  {
  }
}
