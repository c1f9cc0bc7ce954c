/** Thread server functions: cloning a thread up to a message, listing the
    owner's threads newest first, and deleting a thread. */
module Threads {
  import opened Wrappers
  import opened Messages
  import opened Store
  import SeqUtil
  import ChatHelpers

  const MEMORY_NOT_AVAILABLE: string := "Memory not available"

  datatype CloneInput = CloneInput(sourceThreadId: string, upToMessageId: Option<string>)

  /** The arguments of the memory's `cloneThread`: `messageFilter` is `None`
      when no filter option is passed. */
  datatype CloneCall = CloneCall(sourceThreadId: string, messageFilter: Option<seq<string>>)

  /** The handler of `cloneThread`, up to the call into memory. An empty or
      absent `upToMessageId` selects the whole thread. */
  function CloneThread(input: CloneInput, memory: Option<Memory>): (r: Result<CloneCall, string>)
    ensures input.sourceThreadId == "" ==> r == Failure("sourceThreadId is required")
    ensures input.sourceThreadId != "" && memory.None? ==> r == Failure(MEMORY_NOT_AVAILABLE)
    ensures input.sourceThreadId != "" && memory.Some? ==>
      r.Success? && r.value.sourceThreadId == input.sourceThreadId
    ensures r.Success? && (input.upToMessageId.None? || input.upToMessageId.value == "") ==>
      r.value.messageFilter.None?
    ensures r.Success? && input.upToMessageId.Some? ==>
      var log := Recall(memory.value, input.sourceThreadId);
      var idx := ChatHelpers.IndexOfId(log, input.upToMessageId.value);
      && (idx == -1 ==> r.value.messageFilter.None?)
      && (idx >= 0 && input.upToMessageId.value != "" ==>
            r.value.messageFilter == Some(ChatHelpers.NonEmptyIds(log[..idx + 1])))
  {
    if input.sourceThreadId == "" then Failure("sourceThreadId is required")
    else if memory.None? then Failure(MEMORY_NOT_AVAILABLE)
    else
      var filter :=
        if input.upToMessageId.None? || input.upToMessageId.value == "" then None
        else
          var all := Recall(memory.value, input.sourceThreadId);
          var idx := ChatHelpers.IndexOfId(all, input.upToMessageId.value);
          if idx == -1 then None
          else Some(ChatHelpers.NonEmptyIds(SeqUtil.Slice(all, 0, idx + 1)));
      Success(CloneCall(input.sourceThreadId, filter))
  }

  /** The predicate "this message is selected by the filter". */
  function Listed(ids: seq<string>): Message -> bool {
    (m: Message) => m.id in ids
  }

  /** The messages the clone receives from the source log. */
  function ClonedMessages(log: seq<Message>, filter: Option<seq<string>>): seq<Message> {
    match filter
    case None => log
    case Some(ids) => SeqUtil.Filter(log, Listed(ids))
  }

  /** Selecting ids that cover exactly a prefix of the log keeps that prefix. */
  lemma {:induction false} SelectPrefixIds(log: seq<Message>, ids: seq<string>, k: nat)
    requires k <= |log|
    requires forall i :: 0 <= i < k ==> log[i].id in ids
    requires forall i :: k <= i < |log| ==> log[i].id !in ids
    ensures SeqUtil.Filter(log, Listed(ids)) == log[..k]
  {
    var pre, post := log[..k], log[k..];
    assert log == pre + post;
    SeqUtil.FilterAppend(pre, post, Listed(ids));
    assert forall i :: 0 <= i < |pre| ==> Listed(ids)(pre[i]);
    SeqUtil.FilterAll(pre, Listed(ids));
    assert forall i :: 0 <= i < |post| ==> post[i] == log[k + i];
    SeqUtil.FilterNone(post, Listed(ids));
  }

  /** In a well-keyed log no later message shares an id with the first k. */
  lemma {:induction false} LaterIdsNotInPrefix(log: seq<Message>, k: nat)
    requires k <= |log|
    requires ChatHelpers.WellKeyed(log)
    ensures forall i :: k <= i < |log| ==> log[i].id !in ChatHelpers.NonEmptyIds(log[..k])
  {
    var ids := ChatHelpers.NonEmptyIds(log[..k]);
    forall i | k <= i < |log|
      ensures log[i].id !in ids
    {
      forall p | 0 <= p < |ids|
        ensures ids[p] != log[i].id
      {
        var j :| 0 <= j < |log[..k]| && log[..k][j].id == ids[p];
        assert log[j].id == ids[p];
      }
    }
  }

  /** Cloning up to a message found at idx copies messages 0..idx of the
      source, the target included. */
  lemma {:induction false} CloneIsInclusivePrefix(input: CloneInput, mem: Memory)
    requires input.sourceThreadId != "" && input.upToMessageId.Some?
    requires ChatHelpers.WellKeyed(Recall(mem, input.sourceThreadId))
    requires ChatHelpers.IndexOfId(Recall(mem, input.sourceThreadId), input.upToMessageId.value) >= 0
    ensures var log := Recall(mem, input.sourceThreadId);
      var idx := ChatHelpers.IndexOfId(log, input.upToMessageId.value);
      ClonedMessages(log, CloneThread(input, Some(mem)).value.messageFilter) == log[..idx + 1]
  {
    var log := Recall(mem, input.sourceThreadId);
    var idx := ChatHelpers.IndexOfId(log, input.upToMessageId.value);
    assert input.upToMessageId.value != "" by {
      assert log[idx].id == input.upToMessageId.value;
    }
    assert CloneThread(input, Some(mem)).value.messageFilter == Some(ChatHelpers.NonEmptyIds(log[..idx + 1]));
    PrefixIdsSelectPrefix(log, idx + 1);
  }

  /** In a well-keyed log, the ids of the first k messages select exactly
      those k messages. */
  lemma {:induction false} PrefixIdsSelectPrefix(log: seq<Message>, k: nat)
    requires k <= |log|
    requires ChatHelpers.WellKeyed(log)
    ensures SeqUtil.Filter(log, Listed(ChatHelpers.NonEmptyIds(log[..k]))) == log[..k]
  {
    var pre := log[..k];
    var ids := ChatHelpers.NonEmptyIds(pre);
    assert forall i :: 0 <= i < |pre| ==> pre[i] == log[i];
    LaterIdsNotInPrefix(log, k);
    SelectPrefixIds(log, ids, k);
  }

  /** With no target, or one the log does not hold, the whole thread is
      copied. */
  lemma {:induction false} CloneWithoutTargetCopiesAll(input: CloneInput, mem: Memory)
    requires input.sourceThreadId != ""
    requires input.upToMessageId.None?
      || ChatHelpers.IndexOfId(Recall(mem, input.sourceThreadId), input.upToMessageId.value) == -1
    ensures var log := Recall(mem, input.sourceThreadId);
      ClonedMessages(log, CloneThread(input, Some(mem)).value.messageFilter) == log
  {
  }

  /** Threads ordered by `updatedAt`, most recent first. */
  ghost predicate NewestFirst(ts: seq<Thread>) {
    forall i, j :: 0 <= i < j < |ts| ==> ts[i].updatedAt >= ts[j].updatedAt
  }

  /** The predicate "last updated at v". */
  function UpdatedAt(v: int): Thread -> bool {
    (t: Thread) => t.updatedAt == v
  }

  /** Places `t` before the first thread no newer than it. */
  function Insert(t: Thread, sorted: seq<Thread>): (r: seq<Thread>)
    requires NewestFirst(sorted)
    ensures NewestFirst(r)
    ensures multiset(r) == multiset(sorted) + multiset{t}
    ensures |r| == |sorted| + 1
    ensures r[0] == t || (|sorted| > 0 && r[0] == sorted[0])
  {
    if |sorted| == 0 then [t]
    else if sorted[0].updatedAt <= t.updatedAt then [t] + sorted
    else
      var rest := Insert(t, sorted[1..]);
      assert sorted == [sorted[0]] + sorted[1..];
      assert rest[0].updatedAt <= sorted[0].updatedAt;
      [sorted[0]] + rest
  }

  /** Insertion is stable: `t` lands before every thread updated at the
      same instant, and those keep their order. */
  lemma {:induction false} InsertStable(t: Thread, sorted: seq<Thread>, v: int)
    requires NewestFirst(sorted)
    ensures SeqUtil.Filter(Insert(t, sorted), UpdatedAt(v))
      == (if t.updatedAt == v then [t] else []) + SeqUtil.Filter(sorted, UpdatedAt(v))
  {
    if |sorted| == 0 {
    } else if sorted[0].updatedAt <= t.updatedAt {
      assert ([t] + sorted)[1..] == sorted;
    } else {
      var rest := Insert(t, sorted[1..]);
      assert ([sorted[0]] + rest)[1..] == rest;
      InsertStable(t, sorted[1..], v);
    }
  }

  /** The sort keeps, for every instant, the threads updated at it in their
      listed order. */
  lemma {:induction false} SortStable(ts: seq<Thread>, v: int)
    ensures SeqUtil.Filter(SortNewestFirst(ts), UpdatedAt(v)) == SeqUtil.Filter(ts, UpdatedAt(v))
  {
    if |ts| > 0 {
      SortStable(ts[1..], v);
      InsertStable(ts[0], SortNewestFirst(ts[1..]), v);
    }
  }

  /** The sort of the listing: stable, most recently updated first. */
  function SortNewestFirst(ts: seq<Thread>): (r: seq<Thread>)
    ensures NewestFirst(r)
    ensures multiset(r) == multiset(ts)
  {
    if |ts| == 0 then []
    else
      assert ts == [ts[0]] + ts[1..];
      Insert(ts[0], SortNewestFirst(ts[1..]))
  }

  /** `getThreads`. `listing` is what the memory lists for the owner, or
      `None` when there is no memory. The result is the listing reordered
      newest first; threads updated at the same instant keep their order. */
  function GetThreads(listing: Option<seq<Thread>>): (r: seq<Thread>)
    ensures listing.None? ==> r == []
    ensures listing.Some? ==> NewestFirst(r) && multiset(r) == multiset(listing.value)
  {
    match listing
    case None => []
    case Some(ts) => SortNewestFirst(ts)
  }

  /** `deleteThread`: validation, then the memory check, then the delete. */
  function DeleteThreadFn(threadId: string, memory: Option<Memory>): (r: Result<Memory, string>)
    ensures threadId == "" ==> r == Failure("threadId is required")
    ensures threadId != "" && memory.None? ==> r == Failure(MEMORY_NOT_AVAILABLE)
    ensures r.Success? ==>
      && memory.Some?
      && threadId !in r.value.threads && threadId !in r.value.logs
      && (forall t :: t in memory.value.threads && t != threadId ==>
            t in r.value.threads && r.value.threads[t] == memory.value.threads[t])
      && r.value.threads == memory.value.threads - {threadId}
      && r.value.logs == memory.value.logs - {threadId}
      && r.value.working == memory.value.working
    ensures threadId != "" && memory.Some? ==> r.Success?
  {
    if threadId == "" then Failure("threadId is required")
    else if memory.None? then Failure(MEMORY_NOT_AVAILABLE)
    else Success(DeleteThread(memory.value, threadId))
  }
}
