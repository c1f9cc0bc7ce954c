/** The UI message shape shared by client and server, and the elements of
    the outgoing UI message stream. */
module Messages {
  import opened Wrappers

  /** The single, fixed resource owner (there is no authentication). */
  const RESOURCE_ID: string := "user-id"

  /** The placeholder title a thread is created with. */
  const NEW_CHAT_TITLE: string := "New Chat"

  datatype Role = System | User | Assistant

  /** Lifecycle of a tool-call part. */
  datatype ToolState = InputStreaming | InputAvailable | OutputAvailable | OutputError

  /** The kinds of part a UI message is made of. */
  datatype Part =
    | TextPart(text: string)
    | ReasoningPart(text: string)
    | ToolPart(toolName: string, state: ToolState)
    | FilePart(url: string)
    | SourcePart(url: string)
    | StepStart
    | DataPart(name: string)

  datatype Message = Message(id: string, role: Role, parts: seq<Part>)

  /** Payload of a `data-new-thread-created` part; timestamps are the
      milliseconds behind the ISO strings sent on the wire. */
  datatype NewThreadData = NewThreadData(
    threadId: string, title: string, resourceId: string, createdAt: int, updatedAt: int)

  /** One element of the outgoing stream. `id` is the optional part id of the
      envelope; `Merged` stands for the whole agent generation stream. */
  datatype Event =
    | NewThreadCreated(id: Option<string>, data: NewThreadData)
    | ConversationTitle(id: Option<string>, title: string)
    | Merged
}
