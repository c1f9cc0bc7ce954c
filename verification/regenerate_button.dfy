/** The client-side regenerate action: cut the local message list back to
    just before the message being regenerated, then ask for a new reply. */
module RegenerateButton {
  import opened Messages
  import opened Store
  import SeqUtil
  import ChatHelpers

  /** The effects of the handler, in the order it performs them. */
  datatype Action = SetMessages(messages: seq<Message>) | Regenerate

  /** `messages.slice(0, messages.findIndex((m) => m.id === id))`. */
  function PrecedingMessages(messages: seq<Message>, id: string): (r: seq<Message>)
    ensures var idx := ChatHelpers.IndexOfId(messages, id);
      idx >= 0 ==> |r| == idx && r == messages[..idx]
    ensures var idx := ChatHelpers.IndexOfId(messages, id);
      idx >= 0 ==> forall i :: 0 <= i < |r| ==> r[i].id != id
    ensures ChatHelpers.IndexOfId(messages, id) == -1 && |messages| > 0 ==>
      r == messages[..|messages| - 1]
    ensures ChatHelpers.IndexOfId(messages, id) == -1 && |messages| == 0 ==> r == []
  {
    SeqUtil.Slice(messages, 0, ChatHelpers.IndexOfId(messages, id))
  }

  /** The click handler: replace the list, then regenerate. */
  function HandleRegenerate(messages: seq<Message>, target: Message): (actions: seq<Action>)
    ensures |actions| == 2
    ensures actions[0] == SetMessages(PrecedingMessages(messages, target.id))
    ensures actions[1] == Regenerate
  {
    [SetMessages(PrecedingMessages(messages, target.id)), Regenerate]
  }

  /** The kept list is a prefix of the original, unchanged in order and
      content, which ends right before the target when the target is found. */
  lemma {:induction false} PrecedingIsPrefix(messages: seq<Message>, id: string)
    ensures var r := PrecedingMessages(messages, id);
      |r| <= |messages| && r == messages[..|r|]
    ensures var r := PrecedingMessages(messages, id);
      ChatHelpers.IndexOfId(messages, id) >= 0 ==>
        |r| < |messages| && messages[|r|].id == id
  {
  }

  /** When the target is present on both sides with the same well-keyed
      log, the list the client keeps is exactly the log the server keeps. */
  lemma {:induction false} ClientMatchesServerTruncation(mem: Memory, threadId: string, target: Message)
    requires threadId in mem.logs
    requires ChatHelpers.WellKeyed(mem.logs[threadId])
    requires ChatHelpers.IndexOfId(mem.logs[threadId], target.id) >= 0
    ensures var server := ChatHelpers.HandleRegeneration(mem, threadId, target.id);
      threadId in server.logs
      && HandleRegenerate(mem.logs[threadId], target)[0]
           == SetMessages(server.logs[threadId])
  {
    ChatHelpers.RegenerationTruncates(mem, threadId, target.id);
  }
}
