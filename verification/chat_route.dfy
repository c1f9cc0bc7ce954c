/** The `POST /api/chat` handler: model fallback, inline get-or-create of
    the thread, the outgoing stream trace and the title loop run when the
    agent finishes. */
module ChatRoute {
  import opened Wrappers
  import opened Messages
  import opened Store
  import Models
  import Assistant
  import ChatHelpers
  import ChatInterface

  /** The body fields the handler reads; it reads no others. The thread id
      is `None` when the page sent `null`, as the root page does. */
  datatype PostParams = PostParams(threadId: Option<string>, messages: seq<Message>, modelId: Option<string>)

  /** The parameters the handler reads from a request the chat page sends:
      the thread id comes from the transport's body. */
  function ParamsOf(body: ChatInterface.TransportBody, messages: seq<Message>, modelId: Option<string>)
    : (p: PostParams)
    ensures p.threadId == body.threadId && p.messages == messages && p.modelId == modelId
  {
    PostParams(body.threadId, messages, modelId)
  }

  /** Whether the request names a thread the memory already has. */
  predicate Existing(params: PostParams, mem: Memory) {
    params.threadId.Some? && params.threadId.value in mem.threads
  }

  /** The arguments the agent stream is started with. */
  datatype AgentCall = AgentCall(
    messages: seq<Message>,
    context: Assistant.RequestContext,
    thread: Thread,
    resource: string,
    maxSteps: nat)

  /** `Failed` is an error thrown inside the stream's `execute`; `Streamed`
      carries the parts written to the stream, the agent call and the memory
      once the title has been persisted. */
  datatype Outcome =
    | Failed(reason: string)
    | Streamed(trace: seq<Event>, call: AgentCall, mem: Memory)

  const MAX_STEPS: nat := 20

  /** The request context of a turn: only `modelId` is set, to the fallback
      of the raw id. */
  function TurnContext(rawModelId: Option<string>): (ctx: Assistant.RequestContext)
    ensures ctx.modelId == Some(Models.ResolveModelId(rawModelId))
    ensures ctx.webSearchEnabled.None?
  {
    Assistant.EMPTY_CONTEXT.(modelId := Some(Models.ResolveModelId(rawModelId)))
  }

  /** The thread used for the turn, the memory after get-or-create and the
      parts written before the agent stream. */
  datatype Prepared = Prepared(thread: Thread, mem: Memory, events: seq<Event>)

  /** The inline get-or-create. Without an id nothing is found, and the
      memory creates the thread under `freshId`, the id it assigns. */
  function GetOrCreate(mem: Memory, threadId: Option<string>, freshId: string, now: int): Prepared {
    match (if threadId.Some? then GetThreadById(mem, threadId.value) else None)
    case Some(existing) => Prepared(existing, mem, [])
    case None =>
      var (mem', created) := CreateThread(mem, threadId.GetOr(freshId), RESOURCE_ID, NEW_CHAT_TITLE, now);
      Prepared(created, mem', [ChatHelpers.NewThreadEvent(created, None)])
  }

  /** One turn. `memory` is `None` when the agent has no memory; `now` is the
      clock at thread creation and `finishedAt` when the agent finishes;
      `partials` and `finalTitle` are what the titler streams and returns.
      `freshId` and `titleId` are the ids the memory assigns when a thread
      is created without one: at get-or-create and at the title write, which
      both pass the request's raw thread id. */
  function Post(
    params: PostParams, memory: Option<Memory>, now: int, finishedAt: int,
    partials: seq<Option<string>>, finalTitle: string, freshId: string, titleId: string)
    : (o: Outcome)
    ensures o.Failed? <==> memory.None?
    ensures o.Failed? ==> o.reason == "Failed to create thread"
    ensures o.Streamed? ==>
      && o.call.messages == params.messages
      && o.call.context == TurnContext(params.modelId)
      && o.call.resource == RESOURCE_ID
      && o.call.maxSteps == MAX_STEPS
    ensures o.Streamed? && Existing(params, memory.value) ==>
      && o.call.thread == memory.value.threads[params.threadId.value]
      && |o.trace| == 1 + |partials|
      && o.trace[0] == Merged
    ensures o.Streamed? && !Existing(params, memory.value) ==>
      var id := params.threadId.GetOr(freshId);
      && o.call.thread == Thread(id, Some(NEW_CHAT_TITLE), RESOURCE_ID, now, now)
      && |o.trace| == 2 + |partials|
      && o.trace[0] == NewThreadCreated(None, NewThreadData(id, NEW_CHAT_TITLE, RESOURCE_ID, now, now))
      && o.trace[1] == Merged
    ensures o.Streamed? ==> forall i :: 0 <= i < |partials| ==>
      o.trace[|o.trace| - |partials| + i] == ConversationTitle(None, partials[i].GetOr(""))
    ensures o.Streamed? ==>
      var titled := params.threadId.GetOr(titleId);
      && o.mem.threads == (if Existing(params, memory.value) then memory.value.threads
                           else memory.value.threads[o.call.thread.id := o.call.thread])
                          [titled := Thread(titled, Some(finalTitle), RESOURCE_ID, finishedAt, finishedAt)]
      && o.mem.logs == memory.value.logs
      && o.mem.working == memory.value.working
  {
    if memory.None? then Failed("Failed to create thread")
    else
      var p := GetOrCreate(memory.value, params.threadId, freshId, now);
      var call := AgentCall(params.messages, TurnContext(params.modelId), p.thread, RESOURCE_ID, MAX_STEPS);
      var (mem', _) := CreateThread(p.mem, params.threadId.GetOr(titleId), RESOURCE_ID, finalTitle, finishedAt);
      Streamed(p.events + [Merged] + ChatHelpers.TitleEvents(None, partials), call, mem')
  }

  /** Any `data-new-thread-created` part precedes the agent stream, and an
      existing thread is never announced. */
  lemma {:induction false} NewThreadPrecedesAgentStream(
    params: PostParams, memory: Option<Memory>, now: int, finishedAt: int,
    partials: seq<Option<string>>, finalTitle: string, freshId: string, titleId: string)
    requires Post(params, memory, now, finishedAt, partials, finalTitle, freshId, titleId).Streamed?
    ensures var trace := Post(params, memory, now, finishedAt, partials, finalTitle, freshId, titleId).trace;
      forall i, j :: 0 <= i < |trace| && 0 <= j < |trace| && trace[i].NewThreadCreated? && trace[j].Merged?
        ==> i < j
    ensures var trace := Post(params, memory, now, finishedAt, partials, finalTitle, freshId, titleId).trace;
      (exists i :: 0 <= i < |trace| && trace[i].NewThreadCreated?) <==> !Existing(params, memory.value)
  {
    var trace := Post(params, memory, now, finishedAt, partials, finalTitle, freshId, titleId).trace;
    var n := |trace| - |partials|;
    forall i | n <= i < |trace|
      ensures trace[i].ConversationTitle?
    {
      assert trace[n + (i - n)] == ConversationTitle(None, partials[i - n].GetOr(""));
    }
  }

  /** The inline get-or-create of the handler agrees with the shared helper:
      same thread, same memory, and the same announcement payload. */
  lemma {:induction false} GetOrCreateMatchesResolveThread(mem: Memory, threadId: string, freshId: string, now: int)
    ensures var p := GetOrCreate(mem, Some(threadId), freshId, now);
            var r := ChatHelpers.ResolveThread(mem, threadId, now);
            && p.thread == r.thread
            && p.mem == r.mem
            && |p.events| == |r.events|
            && (forall i :: 0 <= i < |p.events| ==> p.events[i].data == r.events[i].data)
  {
  }

  /** On this path the agent always runs a listed model and is never offered
      web search: the handler sets no `webSearchEnabled` key. */
  lemma {:induction false} TurnRunsListedModelWithoutTools(rawModelId: Option<string>)
    ensures Models.IsKnownModel(Assistant.SelectModel(TurnContext(rawModelId)))
    ensures Assistant.SelectTools(TurnContext(rawModelId)) == {}
  {
    Assistant.SelectedModelIsKnown(TurnContext(rawModelId));
  }

  /** A page that names its thread: the thread announced (if any), the one
      the agent runs on and the one that gets the final title are the same,
      and no other thread changes. */
  lemma {:induction false} NamedThreadIsUsedThroughout(
    id: string, messages: seq<Message>, modelId: Option<string>, memory: Memory, now: int, finishedAt: int,
    partials: seq<Option<string>>, finalTitle: string, freshId: string, titleId: string)
    requires Keyed(memory)
    ensures
      var o := Post(ParamsOf(ChatInterface.Transport(Some(id)), messages, modelId), Some(memory),
                    now, finishedAt, partials, finalTitle, freshId, titleId);
      && o.Streamed?
      && o.call.thread.id == id
      && (o.trace[0].NewThreadCreated? ==> o.trace[0].data.threadId == id)
      && o.mem.threads == memory.threads[id := Thread(id, Some(finalTitle), RESOURCE_ID, finishedAt, finishedAt)]
  {
    var params := ParamsOf(ChatInterface.Transport(Some(id)), messages, modelId);
    var o := Post(params, Some(memory), now, finishedAt, partials, finalTitle, freshId, titleId);
    if Existing(params, memory) {
      assert o.call.thread == memory.threads[id];
    }
  }

  /** A turn from the root page, which has no thread id: the thread is
      created under the id the memory assigns, the page moves to its path,
      and the final title is written to a second newly created thread, so
      the announced thread keeps "New Chat" whenever the two assigned ids
      differ. */
  lemma {:induction false} RootPageTitlesAnotherThread(
    messages: seq<Message>, modelId: Option<string>, memory: Memory, now: int, finishedAt: int,
    partials: seq<Option<string>>, finalTitle: string, freshId: string, titleId: string)
    requires freshId != titleId
    ensures
      var o := Post(ParamsOf(ChatInterface.Transport(None), messages, modelId), Some(memory),
                    now, finishedAt, partials, finalTitle, freshId, titleId);
      && o.Streamed?
      && o.call.thread.id == freshId
      && o.trace[0].NewThreadCreated?
      && ChatInterface.OnData("/", ChatInterface.NewThreadCreatedData(o.trace[0].data)) == "/c/" + freshId
      && o.mem.threads[freshId].title == Some(NEW_CHAT_TITLE)
      && o.mem.threads[titleId].title == Some(finalTitle)
  {
  }
}
