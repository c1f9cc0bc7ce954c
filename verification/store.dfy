/** The agent memory (threads, per-thread message logs, per-owner working
    memory) as pure maps. Its operations belong to the memory library; they
    are given the plain meaning the application relies on. */
module Store {
  import opened Wrappers
  import opened Messages
  import SeqUtil

  datatype Thread = Thread(
    id: string, title: Option<string>, resourceId: string, createdAt: int, updatedAt: int)

  datatype Memory = Memory(
    threads: map<string, Thread>,
    logs: map<string, seq<Message>>,
    working: map<string, string>)

  /** `getThreadById`: null when there is no such thread. */
  function GetThreadById(mem: Memory, threadId: string): (r: Option<Thread>)
    ensures r.Some? <==> threadId in mem.threads
    ensures r.Some? ==> r.value == mem.threads[threadId]
  {
    if threadId in mem.threads then Some(mem.threads[threadId]) else None
  }

  /** `createThread`: saves a fresh record under the given id, replacing any
      record already there, and returns it. */
  function CreateThread(mem: Memory, threadId: string, resourceId: string, title: string, now: int)
    : (r: (Memory, Thread))
    ensures r.1 == Thread(threadId, Some(title), resourceId, now, now)
    ensures r.0 == mem.(threads := mem.threads[threadId := r.1])
  {
    var t := Thread(threadId, Some(title), resourceId, now, now);
    (mem.(threads := mem.threads[threadId := t]), t)
  }

  /** Every stored thread is filed under its own id. */
  predicate Keyed(mem: Memory) {
    forall id :: id in mem.threads ==> mem.threads[id].id == id
  }

  /** `createThread` keeps the threads filed under their own ids. */
  lemma CreateThreadKeepsKeyed(mem: Memory, threadId: string, resourceId: string, title: string, now: int)
    requires Keyed(mem)
    ensures Keyed(CreateThread(mem, threadId, resourceId, title, now).0)
  {
  }

  /** `recall`: the stored log of a thread, empty when it has none. */
  function Recall(mem: Memory, threadId: string): (r: seq<Message>)
    ensures threadId in mem.logs ==> r == mem.logs[threadId]
    ensures threadId !in mem.logs ==> r == []
  {
    if threadId in mem.logs then mem.logs[threadId] else []
  }

  /** The predicate "this message is not being deleted". */
  function NotListed(ids: seq<string>): Message -> bool {
    (m: Message) => m.id !in ids
  }

  /** The log with every message whose id is in `ids` removed. */
  function RemoveIds(log: seq<Message>, ids: seq<string>): seq<Message> {
    SeqUtil.Filter(log, NotListed(ids))
  }

  /** `deleteMessages`: removes the messages with the given ids. */
  function DeleteMessages(mem: Memory, ids: seq<string>): (r: Memory)
    ensures r.threads == mem.threads && r.working == mem.working
    ensures r.logs.Keys == mem.logs.Keys
    ensures forall t :: t in mem.logs ==> r.logs[t] == RemoveIds(mem.logs[t], ids)
  {
    mem.(logs := map t | t in mem.logs :: RemoveIds(mem.logs[t], ids))
  }

  /** `deleteThread`: the thread and its log go. */
  function DeleteThread(mem: Memory, threadId: string): (r: Memory)
    ensures r.threads == mem.threads - {threadId}
    ensures r.logs == mem.logs - {threadId}
    ensures r.working == mem.working
  {
    mem.(threads := mem.threads - {threadId}, logs := mem.logs - {threadId})
  }
}
