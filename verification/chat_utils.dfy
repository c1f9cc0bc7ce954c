/** When the assistant's loading shimmer is shown. */
module ChatUtils {
  import opened Wrappers
  import opened Messages

  /** The chat status of the UI state library. */
  datatype ChatStatus = Submitted | Streaming | Ready | Error

  /** The last element satisfying `p`, scanning from the end. */
  function FindLast<T>(s: seq<T>, p: T -> bool): (r: Option<T>)
    ensures r.None? <==> forall i :: 0 <= i < |s| ==> !p(s[i])
    ensures r.Some? ==> exists k :: 0 <= k < |s| && s[k] == r.value && p(s[k])
                                 && forall i :: k < i < |s| ==> !p(s[i])
  {
    if |s| == 0 then None
    else if p(s[|s| - 1]) then Some(s[|s| - 1])
    else
      var init := s[..|s| - 1];
      var r := FindLast(init, p);
      if r.Some? then
        ghost var k :| 0 <= k < |init| && init[k] == r.value && p(init[k])
                       && forall i :: k < i < |init| ==> !p(init[i]);
        assert s[k] == r.value;
        assert forall i :: k < i < |init| ==> s[i] == init[i];
        r
      else r
  }

  function IsAssistant(m: Message): bool {
    m.role == Assistant
  }

  /** Some text part of the message has non-empty text. */
  predicate HasTextContent(m: Message) {
    exists i :: 0 <= i < |m.parts| && m.parts[i].TextPart? && |m.parts[i].text| > 0
  }

  function ShouldShowLoadingShimmer(status: ChatStatus, messages: seq<Message>): (show: bool)
    ensures status == Submitted ==> show
    ensures status != Submitted && status != Streaming ==> !show
    ensures status == Streaming && (forall i :: 0 <= i < |messages| ==> messages[i].role != Assistant) ==> show
    ensures status == Streaming ==>
      (!show <==> exists k :: 0 <= k < |messages| && messages[k].role == Assistant
                    && (forall i :: k < i < |messages| ==> messages[i].role != Assistant)
                    && HasTextContent(messages[k]))
  {
    if status == Submitted then true
    else if status == Streaming then
      match FindLast(messages, IsAssistant)
      case None => true
      case Some(last) => !HasTextContent(last)
    else false
  }

  /** Only the last assistant message matters: whatever came before it,
      and whatever non-assistant messages follow it, the answer is the same. */
  lemma {:induction false} OnlyLastAssistantCounts(
    status: ChatStatus, earlier: seq<Message>, earlier': seq<Message>, last: Message, after: seq<Message>)
    requires last.role == Assistant
    requires forall i :: 0 <= i < |after| ==> after[i].role != Assistant
    ensures ShouldShowLoadingShimmer(status, earlier + [last] + after)
         == ShouldShowLoadingShimmer(status, earlier' + [last] + after)
  {
    var a, b := earlier + [last] + after, earlier' + [last] + after;
    assert a[|earlier|] == last && b[|earlier'|] == last;
    assert forall i :: |earlier| < i < |a| ==> a[i] == after[i - |earlier| - 1];
    assert forall i :: |earlier'| < i < |b| ==> b[i] == after[i - |earlier'| - 1];
    if status == Streaming {
      var ra, rb := FindLast(a, IsAssistant), FindLast(b, IsAssistant);
      assert ra == Some(last) by {
        var k :| 0 <= k < |a| && a[k] == ra.value && IsAssistant(a[k])
                 && forall i :: k < i < |a| ==> !IsAssistant(a[i]);
        assert k == |earlier|;
      }
      assert rb == Some(last) by {
        var k :| 0 <= k < |b| && b[k] == rb.value && IsAssistant(b[k])
                 && forall i :: k < i < |b| ==> !IsAssistant(b[i]);
        assert k == |earlier'|;
      }
    }
  }
}
