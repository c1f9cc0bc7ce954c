/** The server functions that read and write the owner's working memory.
    The stored value is a serialised `WorkingMemory`; parsing and
    serialising are given as functions. */
module MemoryApi {
  import opened Wrappers
  import opened Messages
  import opened Store
  import WorkingMemoryUpdate

  type WorkingMemory = WorkingMemoryUpdate.WorkingMemory

  const MEMORY_NOT_AVAILABLE: string := "Memory not available"

  /** What the memory holds for the owner, if anything. */
  function RawWorkingMemory(mem: Memory): Option<string> {
    if RESOURCE_ID in mem.working then Some(mem.working[RESOURCE_ID]) else None
  }

  /** `getWorkingMemory`: the parsed value, or nothing when there is no
      memory, nothing (or the empty string) is stored, or the stored value
      does not parse. It never fails. */
  function GetWorkingMemory(memory: Option<Memory>, parse: string -> Option<WorkingMemory>)
    : (r: Option<WorkingMemory>)
    ensures memory.None? ==> r.None?
    ensures memory.Some? && (RESOURCE_ID !in memory.value.working || memory.value.working[RESOURCE_ID] == "") ==> r.None?
    ensures memory.Some? && RESOURCE_ID in memory.value.working && memory.value.working[RESOURCE_ID] != "" ==>
      r == parse(memory.value.working[RESOURCE_ID])
  {
    match memory
    case None => None
    case Some(mem) =>
      match RawWorkingMemory(mem)
      case None => None
      case Some(raw) => if raw == "" then None else parse(raw)
  }

  /** `updateWorkingMemory`: stores the serialised value for the owner, or
      fails when there is no memory. Nothing else in memory changes. */
  function UpdateWorkingMemory(memory: Option<Memory>, data: WorkingMemory, serialize: WorkingMemory -> string)
    : (r: Result<Memory, string>)
    ensures memory.None? <==> r == Failure(MEMORY_NOT_AVAILABLE)
    ensures r.Success? ==>
      && RESOURCE_ID in r.value.working && r.value.working[RESOURCE_ID] == serialize(data)
      && r.value.threads == memory.value.threads && r.value.logs == memory.value.logs
      && (forall k :: k in memory.value.working && k != RESOURCE_ID ==>
            k in r.value.working && r.value.working[k] == memory.value.working[k])
  {
    match memory
    case None => Failure(MEMORY_NOT_AVAILABLE)
    case Some(mem) => Success(mem.(working := mem.working[RESOURCE_ID := serialize(data)]))
  }

  /** With a codec that reads back what it writes, a read after an update
      returns the value written. */
  lemma UpdateThenGet(mem: Memory, data: WorkingMemory, serialize: WorkingMemory -> string,
                      parse: string -> Option<WorkingMemory>)
    requires parse(serialize(data)) == Some(data) && serialize(data) != ""
    ensures GetWorkingMemory(Some(UpdateWorkingMemory(Some(mem), data, serialize).value), parse) == Some(data)
  {
  }
}
