/** Server-side helpers of a chat turn: request validation, get-or-create of
    the conversation thread, regeneration truncation and title streaming. */
module ChatHelpers {
  import opened Wrappers
  import opened Messages
  import opened Store
  import Models
  import SeqUtil

  /** A request body as it arrives, after JSON decoding. An absent optional
      field is `None`. */
  datatype RawChatRequest = RawChatRequest(
    threadId: string,
    messages: seq<Message>,
    trigger: Option<string>,
    messageId: Option<string>,
    modelId: Option<string>,
    webSearchEnabled: Option<bool>)

  datatype ChatRequest = ChatRequest(
    threadId: string,
    messages: seq<Message>,
    trigger: Option<string>,
    regenerateMessageId: Option<string>,
    modelId: string,
    webSearchEnabled: bool)

  /** Validates a request body; on failure the error lists the offending
      fields. A known model id is kept, any other becomes the default. */
  function ParseChatRequest(params: RawChatRequest): (r: Result<ChatRequest, seq<string>>)
    ensures r.Failure? <==> params.threadId == "" || |params.messages| == 0
    ensures r.Failure? ==> ("threadId" in r.error <==> params.threadId == "")
    ensures r.Failure? ==> ("messages" in r.error <==> |params.messages| == 0)
    ensures r.Success? ==>
      && r.value.threadId == params.threadId
      && r.value.messages == params.messages
      && r.value.trigger == params.trigger
      && r.value.regenerateMessageId == params.messageId
      && r.value.webSearchEnabled == (params.webSearchEnabled == Some(true))
      && Models.IsKnownModel(r.value.modelId)
      && (params.modelId.Some? && Models.IsKnownModel(params.modelId.value) ==>
            r.value.modelId == params.modelId.value)
      && (params.modelId.None? || !Models.IsKnownModel(params.modelId.value) ==>
            r.value.modelId == Models.DEFAULT_MODEL_ID)
  {
    var issues := (if params.threadId == "" then ["threadId"] else [])
                + (if |params.messages| == 0 then ["messages"] else []);
    if |issues| > 0 then Failure(issues)
    else
      Success(ChatRequest(
        params.threadId,
        params.messages,
        params.trigger,
        params.messageId,
        Models.ResolveModelId(params.modelId),
        params.webSearchEnabled.GetOr(false)))
  }

  /** The `data-new-thread-created` part announcing thread `t`. */
  function NewThreadEvent(t: Thread, envelopeId: Option<string>): Event {
    NewThreadCreated(envelopeId, NewThreadData(
      t.id, t.title.GetOr(NEW_CHAT_TITLE), t.resourceId, t.createdAt, t.updatedAt))
  }

  /** The thread used for the turn, whether it was created by it, the memory
      afterwards, and the parts written to the stream. */
  datatype Resolution = Resolution(thread: Thread, isNew: bool, mem: Memory, events: seq<Event>)

  /** Get-or-create: an existing thread is used as is; an absent one is
      created and announced by exactly one event. */
  function ResolveThread(mem: Memory, threadId: string, now: int): (r: Resolution)
    ensures threadId in mem.threads ==> r == Resolution(mem.threads[threadId], false, mem, [])
    ensures threadId !in mem.threads ==>
      && r.isNew
      && r.thread == Thread(threadId, Some(NEW_CHAT_TITLE), RESOURCE_ID, now, now)
      && r.mem == mem.(threads := mem.threads[threadId := r.thread])
      && r.events == [NewThreadCreated(Some(threadId),
                        NewThreadData(threadId, NEW_CHAT_TITLE, RESOURCE_ID, now, now))]
  {
    match GetThreadById(mem, threadId)
    case Some(existing) => Resolution(existing, false, mem, [])
    case None =>
      var (mem', created) := CreateThread(mem, threadId, RESOURCE_ID, NEW_CHAT_TITLE, now);
      Resolution(created, true, mem', [NewThreadEvent(created, Some(created.id))])
  }

  /** Create-if-absent is idempotent: resolving the same id again finds the
      thread the first call made, writes nothing and changes nothing. */
  lemma {:induction false} ResolveThreadIdempotent(mem: Memory, threadId: string, now: int, later: int)
    ensures var first := ResolveThread(mem, threadId, now);
            var second := ResolveThread(first.mem, threadId, later);
            && !second.isNew
            && second.thread == first.thread
            && second.mem == first.mem
            && second.events == []
  {
  }

  /** `findIndex((m) => m.id === id)` over a message log. */
  function IndexOfId(log: seq<Message>, id: string): (k: int)
    ensures -1 <= k < |log|
    ensures k == -1 <==> forall i :: 0 <= i < |log| ==> log[i].id != id
    ensures k >= 0 ==> log[k].id == id && forall i :: 0 <= i < k ==> log[i].id != id
  {
    SeqUtil.FindIndex(log, (m: Message) => m.id == id)
  }

  /** `.map((m) => m.id).filter(Boolean)`: the non-empty ids, in order. */
  function NonEmptyIds(log: seq<Message>): (ids: seq<string>)
    ensures |ids| <= |log|
    ensures forall i :: 0 <= i < |ids| ==> ids[i] != ""
    ensures forall i :: 0 <= i < |log| && log[i].id != "" ==> log[i].id in ids
    ensures forall i :: 0 <= i < |ids| ==> exists j :: 0 <= j < |log| && log[j].id == ids[i]
  {
    if |log| == 0 then []
    else
      var rest := NonEmptyIds(log[1..]);
      assert forall i :: 0 <= i < |rest| ==> exists j :: 0 <= j < |log| && log[j].id == rest[i] by {
        forall i | 0 <= i < |rest|
          ensures exists j :: 0 <= j < |log| && log[j].id == rest[i]
        {
          var j :| 0 <= j < |log[1..]| && log[1..][j].id == rest[i];
          assert log[j + 1].id == rest[i];
        }
      }
      if log[0].id != "" then [log[0].id] + rest else rest
  }

  /** The ids handed to `deleteMessages`, or `None` when it is not called:
      the non-empty ids of the target and of every later message. */
  function RegenerationDeletes(stored: seq<Message>, messageId: string): (r: Option<seq<string>>)
    ensures IndexOfId(stored, messageId) == -1 ==> r.None?
    ensures IndexOfId(stored, messageId) >= 0 ==>
      (r.Some? <==> exists i :: IndexOfId(stored, messageId) <= i < |stored| && stored[i].id != "")
    ensures r.Some? ==> IndexOfId(stored, messageId) >= 0
    ensures r.Some? ==> forall id :: id in r.value <==>
      id != "" && exists i :: IndexOfId(stored, messageId) <= i < |stored| && stored[i].id == id
  {
    var k := IndexOfId(stored, messageId);
    if k == -1 then None
    else
      var ids := NonEmptyIds(stored[k..]);
      SuffixIds(stored, k);
      if |ids| > 0 then Some(ids) else None
  }

  /** The non-empty ids of a suffix, in terms of the whole log. */
  lemma {:induction false} SuffixIds(stored: seq<Message>, k: nat)
    requires k <= |stored|
    ensures forall i :: k <= i < |stored| && stored[i].id != "" ==> stored[i].id in NonEmptyIds(stored[k..])
    ensures forall id :: id in NonEmptyIds(stored[k..]) ==> id != "" && exists i :: k <= i < |stored| && stored[i].id == id
    ensures |NonEmptyIds(stored[k..])| > 0 <==> exists i :: k <= i < |stored| && stored[i].id != ""
  {
    var ids := NonEmptyIds(stored[k..]);
    forall i | k <= i < |stored| && stored[i].id != ""
      ensures stored[i].id in ids
    {
      assert stored[k..][i - k] == stored[i];
    }
    forall id | id in ids
      ensures id != "" && exists i :: k <= i < |stored| && stored[i].id == id
    {
      var p :| 0 <= p < |ids| && ids[p] == id;
      var j :| 0 <= j < |stored[k..]| && stored[k..][j].id == ids[p];
      assert stored[k + j].id == id;
    }
    if |ids| > 0 {
      assert ids[0] in ids;
    }
  }

  /** Regeneration on the stored log of `threadId`. */
  function HandleRegeneration(mem: Memory, threadId: string, messageId: string): (r: Memory)
    ensures r.threads == mem.threads && r.working == mem.working
    ensures IndexOfId(Recall(mem, threadId), messageId) == -1 ==> r == mem
    ensures RegenerationDeletes(Recall(mem, threadId), messageId).None? ==> r == mem
  {
    match RegenerationDeletes(Recall(mem, threadId), messageId)
    case None => mem
    case Some(ids) => DeleteMessages(mem, ids)
  }

  /** Message ids in a log are pairwise distinct and non-empty, as the
      memory store assigns them. */
  ghost predicate WellKeyed(log: seq<Message>) {
    && (forall i :: 0 <= i < |log| ==> log[i].id != "")
    && (forall i, j :: 0 <= i < j < |log| ==> log[i].id != log[j].id)
  }

  /** Removing ids that cover exactly a suffix of the log keeps the prefix. */
  lemma {:induction false} RemoveSuffixIds(log: seq<Message>, ids: seq<string>, k: nat)
    requires k <= |log|
    requires forall i :: 0 <= i < k ==> log[i].id !in ids
    requires forall i :: k <= i < |log| ==> log[i].id in ids
    ensures RemoveIds(log, ids) == log[..k]
  {
    var keep := NotListed(ids);
    assert log == log[..k] + log[k..];
    SeqUtil.FilterAppend(log[..k], log[k..], keep);
    SeqUtil.FilterAll(log[..k], keep);
    forall i | 0 <= i < |log[k..]|
      ensures !keep(log[k..][i])
    {
      assert log[k..][i] == log[k + i];
    }
    SeqUtil.FilterNone(log[k..], keep);
  }

  /** With a well-keyed log and the target found at index k, regeneration
      leaves exactly the first k messages of the thread. */
  lemma {:induction false} RegenerationTruncates(mem: Memory, threadId: string, messageId: string)
    requires threadId in mem.logs
    requires WellKeyed(mem.logs[threadId])
    requires IndexOfId(mem.logs[threadId], messageId) >= 0
    ensures var k := IndexOfId(mem.logs[threadId], messageId);
            var r := HandleRegeneration(mem, threadId, messageId);
            threadId in r.logs && r.logs[threadId] == mem.logs[threadId][..k]
  {
    var log := mem.logs[threadId];
    var k := IndexOfId(log, messageId);
    var del := RegenerationDeletes(log, messageId);
    assert log[k].id != "";
    assert del.Some?;
    var ids := del.value;
    assert forall i :: 0 <= i < k ==> log[i].id !in ids;
    RemoveSuffixIds(log, ids, k);
  }

  /** The envelope id of every title part of a thread. */
  function TitleEventId(threadId: string): string {
    "conversation-title-" + threadId
  }

  /** One `data-conversation-title` part per partial title, in arrival
      order; a partial without a title yet reads as "". */
  function TitleEvents(envelopeId: Option<string>, partials: seq<Option<string>>): (r: seq<Event>)
    ensures |r| == |partials|
    ensures forall i :: 0 <= i < |r| ==>
      r[i].ConversationTitle? && r[i].id == envelopeId && r[i].title == partials[i].GetOr("")
  {
    if |partials| == 0 then []
    else [ConversationTitle(envelopeId, partials[0].GetOr(""))] + TitleEvents(envelopeId, partials[1..])
  }

  datatype TitleOutcome = TitleOutcome(events: seq<Event>, mem: Memory)

  /** Streams the partial titles of the titler, then persists the final
      title on the thread. */
  function GenerateThreadTitle(
    mem: Memory, threadId: string, partials: seq<Option<string>>, finalTitle: string, now: int)
    : (r: TitleOutcome)
    ensures |r.events| == |partials|
    ensures forall i :: 0 <= i < |partials| ==>
      r.events[i] == ConversationTitle(Some(TitleEventId(threadId)), partials[i].GetOr(""))
    ensures threadId in r.mem.threads
    ensures r.mem.threads[threadId].title == Some(finalTitle)
    ensures r.mem.threads[threadId].resourceId == RESOURCE_ID
    ensures forall t :: t in mem.threads && t != threadId ==>
      t in r.mem.threads && r.mem.threads[t] == mem.threads[t]
    ensures r.mem.logs == mem.logs && r.mem.working == mem.working
  {
    var events := TitleEvents(Some(TitleEventId(threadId)), partials);
    var (mem', _) := CreateThread(mem, threadId, RESOURCE_ID, finalTitle, now);
    TitleOutcome(events, mem')
  }
}
