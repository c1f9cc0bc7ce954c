/** The chat page's own decisions: whether a submission is sent, the URL
    rewrite when the server reports a new thread, the empty state, which
    parts are rendered, and the body the transport sends. */
module ChatInterface {
  import opened Wrappers
  import opened Messages
  import PromptComposer

  /** A submission as the page receives it: the text and the file list may
      be missing. */
  datatype Submission = Submission(text: Option<string>, files: Option<seq<PromptComposer.FileRef>>)

  /** The data parts the page can receive during a stream. */
  datatype DataPart =
    | NewThreadCreatedData(data: NewThreadData)
    | ConversationTitleData(title: string)

  /** `handleSubmitMessage`: the submission, when it is sent. */
  function HandleSubmitMessage(s: Submission): (sent: Option<Submission>)
    ensures sent.Some? <==>
      (s.text.Some? && s.text.value != "") || (s.files.Some? && |s.files.value| > 0)
    ensures sent.Some? ==> sent.value == s
  {
    var hasText := s.text.Some? && s.text.value != "";
    var hasAttachments := s.files.Some? && |s.files.value| != 0;
    if !(hasText || hasAttachments) then None else Some(s)
  }

  /** A blank submission is dropped whatever else it carries. */
  lemma BlankSubmissionIsDropped(text: Option<string>)
    requires text.None? || text.value == ""
    ensures HandleSubmitMessage(Submission(text, None)).None?
    ensures HandleSubmitMessage(Submission(text, Some([]))).None?
  {
  }

  /** `onData`: the location path after a data part arrives. Only a
      new-thread part on the root path rewrites it. */
  function OnData(path: string, part: DataPart): (p: string)
    ensures part.NewThreadCreatedData? && path == "/" ==> p == "/c/" + part.data.threadId
    ensures !(part.NewThreadCreatedData? && path == "/") ==> p == path
  {
    match part
    case NewThreadCreatedData(data) => if path == "/" then "/c/" + data.threadId else path
    case ConversationTitleData(_) => path
  }

  /** The rewrite happens at most once: after a new-thread part the path
      is no longer the root, so any later part leaves it alone. */
  lemma OnDataIdempotent(path: string, first: DataPart, later: DataPart)
    requires first.NewThreadCreatedData?
    ensures OnData(path, first) != "/"
    ensures OnData(OnData(path, first), later) == OnData(path, first)
  {
    var p := OnData(path, first);
    if path == "/" {
      assert p[0..3] == "/c/";
    }
  }

  /** Folding `onData` over the data parts of a stream. */
  function OnDataAll(path: string, parts: seq<DataPart>): string
    decreases |parts|
  {
    if |parts| == 0 then path else OnDataAll(OnData(path, parts[0]), parts[1..])
  }

  /** On the root path, a stream whose first new-thread part names thread t
      leaves the page at `/c/t`, whatever follows. */
  lemma {:induction false} StreamRewritesToFirstNewThread(parts: seq<DataPart>, k: nat)
    requires k < |parts| && parts[k].NewThreadCreatedData?
    requires forall i :: 0 <= i < k ==> !parts[i].NewThreadCreatedData?
    ensures OnDataAll("/", parts) == "/c/" + parts[k].data.threadId
    decreases k
  {
    if k == 0 {
      AwayFromRootStays("/c/" + parts[0].data.threadId, parts[1..]);
    } else {
      StreamRewritesToFirstNewThread(parts[1..], k - 1);
    }
  }

  lemma {:induction false} AwayFromRootStays(path: string, parts: seq<DataPart>)
    requires path != "/"
    ensures OnDataAll(path, parts) == path
    decreases |parts|
  {
    if |parts| > 0 {
      AwayFromRootStays(OnData(path, parts[0]), parts[1..]);
    }
  }

  /** `isEmptyState`. */
  function IsEmptyState(messages: seq<Message>): (empty: bool)
    ensures empty <==> messages == []
  {
    |messages| == 0
  }

  /** What a part renders: its text for a text part, nothing otherwise. */
  function RenderPart(p: Part): (r: Option<string>)
    ensures r.Some? <==> p.TextPart?
    ensures r.Some? ==> r.value == p.text
  {
    match p
    case TextPart(text) => Some(text)
    case _ => None
  }

  /** What a message renders: the texts of its text parts, in order. */
  function RenderMessage(parts: seq<Part>): (r: seq<string>)
    ensures |r| <= |parts|
    decreases |parts|
  {
    if |parts| == 0 then []
    else
      (match RenderPart(parts[0]) case Some(t) => [t] case None => []) + RenderMessage(parts[1..])
  }

  /** The rendered texts are exactly the text parts' texts, in order:
      removing every non-text part changes nothing. */
  lemma {:induction false} RenderKeepsOnlyText(parts: seq<Part>)
    ensures RenderMessage(parts) == TextsOf(parts)
    ensures (forall i :: 0 <= i < |parts| ==> !parts[i].TextPart?) ==> RenderMessage(parts) == []
    decreases |parts|
  {
    if |parts| > 0 {
      RenderKeepsOnlyText(parts[1..]);
      TextsOfCons(parts[0], parts[1..]);
      assert parts == [parts[0]] + parts[1..];
    }
  }

  lemma {:induction false} TextsOfCons(p: Part, rest: seq<Part>)
    ensures TextsOf([p] + rest) == (if p.TextPart? then [p.text] else []) + TextsOf(rest)
    decreases |rest|
  {
    if |rest| > 0 {
      var n := |rest| - 1;
      assert ([p] + rest)[..|rest|] == [p] + rest[..n];
      TextsOfCons(p, rest[..n]);
    } else {
      assert [p] + rest == [p];
      assert [p][..0] == [];
    }
  }

  /** The text of each text part, in order (an independent statement of
      what is shown). */
  function TextsOf(parts: seq<Part>): (ts: seq<string>)
    ensures |ts| <= |parts|
    ensures (forall i :: 0 <= i < |parts| ==> !parts[i].TextPart?) ==> ts == []
    decreases |parts|
  {
    if |parts| == 0 then []
    else if parts[|parts| - 1].TextPart? then TextsOf(parts[..|parts| - 1]) + [parts[|parts| - 1].text]
    else TextsOf(parts[..|parts| - 1])
  }

  /** The body the transport adds to every request. */
  datatype TransportBody = TransportBody(threadId: Option<string>)

  /** The transport is built from the page's `threadId` prop. */
  function Transport(threadId: Option<string>): (b: TransportBody)
    ensures b.threadId == threadId
  {
    TransportBody(threadId)
  }
}
