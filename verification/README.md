# openchat in Dafny

A model of the decision logic of openchat, a chat application that has one
assistant agent with memory. The model has three parts.

The server side of a chat turn:
- `POST /api/chat` chooses the model and gets or creates the conversation thread.
- It announces a new thread to the client, then hands the turn to the agent stream.
- When the agent finishes, it streams and persists a generated title.
- Shared helpers validate a request, truncate a thread for regeneration and generate titles.
- Server functions clone, list and delete threads and read and write the owner's working memory.

The client side:
- the composer draft kept in browser storage, with its settings store and debounced text;
- the prompt composer's submit, toggle and model picker;
- the chat page's submit gate and URL rewrite;
- the regenerate button;
- the loading-shimmer rule;
- date grouping of the thread list;
- the working-memory tool display;
- the theme provider and its inline pre-render script.

The agent library's memory is modelled as a value:
- `Store.Memory` maps thread ids to threads and message logs, and owners to working memory.
- Its operations (`getThreadById`, `createThread`, `recall`, `deleteMessages`, `deleteThread`) are pure functions on that value.
- "There is no memory" is `None`.

The stream a turn writes is a trace of events:
- `data-new-thread-created` parts;
- `data-conversation-title` parts;
- one opaque `Merged` element standing for the agent's own stream.

Other substitutions:
- The clock, the titler's output and the system colour preference are parameters.
- The browser document root is reduced to a class set, an attribute map and a colour-scheme slot.

Files, by module:
- `wrappers.dfy`: `Option` and `Result`.
- `seq_util.dfy` (`SeqUtil`): the JavaScript array operations used, with their semantics. These are `findIndex`, `slice` with negative ends, `filter` and `join`.
- `models.dfy` (`Models`), `assistant.dfy` (`Assistant`): the model table and the agent's per-request model and tool choice.
- `messages.dfy` (`Messages`), `store.dfy` (`Store`): messages, stream events, and the memory value.
- `chat_helpers.dfy` (`ChatHelpers`), `chat_route.dfy` (`ChatRoute`): the helpers and the route handler.
- `threads.dfy` (`Threads`), `memory_api.dfy` (`MemoryApi`): the thread and working-memory server functions.
- `regenerate_button.dfy`, `chat_utils.dfy`, `chat_interface.dfy`, `prompt_composer.dfy`, `draft_input.dfy`, `date_utils.dfy`, `working_memory_update.dfy`, `theme.dfy`: the client modules of the same names.

## Model

| member | source | states |
|---|---|---|
| Models.DefaultModelIsKnown | src/config/models.ts:19-48 | the default model id is one of the listed models |
| Models.ChefsAreGroups | src/config/models.ts:5-44 | every model's provider is one of the picker groups |
| Models.ModelIdsDistinct | src/config/models.ts:19-44 | no two listed models share an id |
| Models.OneModelPerGroup | src/config/models.ts:5-44 | as written, each provider group holds exactly the model at the same position in the table |
| Models.ResolveModelId | src/routes/api/chat.ts:19-21 | the fallback always yields a listed model; a listed id passes through unchanged and any other or absent id becomes the default |
| Models.FindModelIn | src/components/chat-prompt-composer.tsx:131-133 | `find` returns an entry iff one has the id, and it is the first such entry |
| Models.ModelsOfGroup | src/components/chat-prompt-composer.tsx:228-230 | a model is listed under a group iff its provider is that group |
| Assistant.SelectModel | src/mastra/agents/assistant.ts:12-15 | a non-empty context id is used as is; an absent or empty one falls back to the default; the result is never empty |
| Assistant.SelectTools | src/mastra/agents/assistant.ts:16-22 | web search is offered iff the context flag is true, and nothing else is ever offered |
| Assistant.SelectedModelIsKnown | src/mastra/agents/assistant.ts:12-15 | a context holding a listed id, or none, makes the agent run a listed model |
| ChatHelpers.ParseChatRequest | src/lib/chat-helpers.ts:10-45 | the request is rejected iff the thread id or the message list is empty, and the error names exactly the offending fields; an accepted request keeps every field, defaults the search flag to false and carries a listed model |
| ChatHelpers.ResolveThread | src/lib/chat-helpers.ts:52-82 | an existing thread is reused with no write and no event; an absent one is created as "New Chat" for the fixed owner and announced by exactly one event whose envelope id is the thread id |
| ChatHelpers.ResolveThreadIdempotent | src/lib/chat-helpers.ts:57-61 | resolving the same id again finds the thread the first call created, changes nothing and announces nothing |
| ChatHelpers.IndexOfId | src/lib/chat-helpers.ts:100 | the index is -1 iff no message has the id; otherwise it is the first message with the id |
| ChatHelpers.NonEmptyIds | src/lib/chat-helpers.ts:103-106 | the ids kept are non-empty and drawn from the log, and every non-empty id of the log is kept |
| ChatHelpers.RegenerationDeletes | src/lib/chat-helpers.ts:98-110 | deletion happens only when the target is found, and then iff some message from it on has an id; the ids deleted are exactly the non-empty ids from the target to the end |
| ChatHelpers.HandleRegeneration | src/lib/chat-helpers.ts:88-111 | threads and working memory are untouched; an unknown target leaves memory unchanged |
| ChatHelpers.RegenerationTruncates | src/lib/chat-helpers.ts:100-110 | on a log whose ids are distinct and non-empty, regenerating the message at index k leaves exactly the first k messages |
| ChatHelpers.TitleEvents | src/lib/chat-helpers.ts:136-144 | one title part per partial title, in arrival order, with a missing title read as "" |
| ChatHelpers.GenerateThreadTitle | src/lib/chat-helpers.ts:117-153 | the parts carry the envelope id "conversation-title-" plus the thread id; afterwards the thread holds the final title and belongs to the fixed owner, while other threads, the logs and working memory are unchanged |
| ChatRoute.TurnContext | src/routes/api/chat.ts:19-24 | the request context holds the fallback of the raw model id and no search flag |
| ChatRoute.Post | src/routes/api/chat.ts:15-107 | the turn fails with "Failed to create thread" iff there is no memory. Otherwise the agent gets the request's messages, the context, the thread, the fixed owner and a limit of 20 steps. A thread absent from memory, or no thread id at all, is created under the given or the memory-assigned id and announced before the agent stream; an existing one is not announced. One title part follows per partial title. The final title is written under the raw request id, or under a second memory-assigned id when there is none, and nothing else in memory changes. |
| ChatRoute.NamedThreadIsUsedThroughout | src/routes/api/chat.ts:17-93 | when the page sends a thread id, the announced thread, the agent's thread and the titled thread all carry that id, and only that thread changes |
| ChatRoute.RootPageTitlesAnotherThread | src/routes/api/chat.ts:17-93 | from the root page, which sends no id, the thread is created and announced under the memory-assigned id and the page moves to its path. The final title goes to a second new thread, so the announced one keeps "New Chat" when the two assigned ids differ. |
| ChatRoute.NewThreadPrecedesAgentStream | src/routes/api/chat.ts:35-106 | every new-thread part comes before the agent stream in the trace, and one occurs iff the request names no existing thread |
| ChatRoute.GetOrCreateMatchesResolveThread | src/routes/api/chat.ts:31-58 | the route's inline get-or-create yields the same thread, memory and announcement payloads as the shared helper |
| ChatRoute.TurnRunsListedModelWithoutTools | src/routes/api/chat.ts:19-24 | on this path the agent always runs a listed model and is never offered web search |
| RegenerateButton.PrecedingMessages | src/components/regenerate-button.tsx:18-19 | with the target found at idx, the kept list is the first idx messages, none with the target's id; with it missing, the last message is dropped, as `slice(0, -1)` does |
| RegenerateButton.HandleRegenerate | src/components/regenerate-button.tsx:17-23 | the handler replaces the list with the preceding messages, then regenerates |
| RegenerateButton.PrecedingIsPrefix | src/components/regenerate-button.tsx:18-19 | the kept list is an unchanged prefix of the original, and when the target is found the next message is the target |
| RegenerateButton.ClientMatchesServerTruncation | src/components/regenerate-button.tsx:17-22 | on the same log with distinct non-empty ids, the list the client keeps equals the log the server keeps after regeneration |
| ChatUtils.FindLast | src/lib/chat-utils.ts:32-37 | nothing is found iff no element matches; what is found matches, and no later element does |
| ChatUtils.ShouldShowLoadingShimmer | src/lib/chat-utils.ts:12-30 | the shimmer shows when submitted and never outside submitted or streaming. While streaming it is hidden iff the last assistant message has a non-empty text part. |
| ChatUtils.OnlyLastAssistantCounts | src/lib/chat-utils.ts:19-26 | the decision depends only on the last assistant message: changing what precedes it changes nothing |
| Threads.CloneThread | src/server/threads.ts:8-46 | an empty source id is rejected first, then a missing memory. An absent or empty target clones everything, and so does a target the log lacks. A found target at idx filters to the non-empty ids of messages 0..idx. |
| Threads.CloneIsInclusivePrefix | src/server/threads.ts:24-45 | on a log with distinct non-empty ids, cloning up to the message at idx copies exactly messages 0..idx, the target included |
| Threads.PrefixIdsSelectPrefix | src/server/threads.ts:30-35 | on a log with distinct non-empty ids, filtering by the ids of the first k messages keeps exactly those k messages |
| Threads.CloneWithoutTargetCopiesAll | src/server/threads.ts:22-45 | without a target, or with one the log lacks, the clone copies the whole log |
| Threads.Insert | src/server/threads.ts:91-94 | inserting into a newest-first list keeps it newest first and adds exactly one element |
| Threads.SortNewestFirst | src/server/threads.ts:91-94 | the sorted list is newest first and a permutation of the input |
| Threads.InsertStable | src/server/threads.ts:91-94 | an insertion goes before every thread updated at the same instant and keeps their order |
| Threads.SortStable | src/server/threads.ts:91-94 | for every instant, the threads updated then keep their listed order (the sort is stable) |
| Threads.GetThreads | src/server/threads.ts:67-98 | no memory lists nothing; otherwise the result is the owner's threads, reordered newest first |
| Threads.DeleteThreadFn | src/server/threads.ts:100-116 | an empty id is rejected first, then a missing memory. Otherwise the thread and its log are gone, every other thread and every other log is kept unchanged, and working memory is untouched. |
| DateUtils.BucketLabelRanges | src/lib/date-utils.ts:36-46 | each fixed label is given exactly on its date range; a month label exactly before the 30-day threshold |
| DateUtils.LabelsOf | src/lib/date-utils.ts:30-46 | one key per item, computed from that item alone |
| DateUtils.FirstSeen | src/lib/date-utils.ts:48-51 | the ordered keys are exactly the keys that occur, each once |
| DateUtils.Positions | src/lib/date-utils.ts:48-52 | the positions of a key, in increasing order, are exactly the items that carry it |
| DateUtils.SelectInInputOrder | src/lib/date-utils.ts:52 | a bucket holds the items with its key, in input order |
| DateUtils.GroupBy | src/lib/date-utils.ts:55-58 | one group per key in first-occurrence order, each holding that key's items |
| DateUtils.BucketsStep | src/lib/date-utils.ts:48-52 | one loop step keeps every bucket equal to the items seen so far with that key, and the key list equal to the first-seen keys |
| DateUtils.GroupByDate | src/lib/date-utils.ts:14-59 | the map-and-key-list loop computes exactly the reference grouping of the labelled items; empty input gives no groups |
| DateUtils.GroupShape | src/lib/date-utils.ts:48-58 | group names are distinct and no group is empty. Every item in a group carries its name, and every item lies in its key's group. |
| DateUtils.GroupSnoc | src/lib/date-utils.ts:48-52 | a new item either opens a new last group or is appended to its key's existing group; nothing else changes |
| DateUtils.GroupPartition | src/lib/date-utils.ts:30-58 | the groups together hold exactly the input items, with multiplicity |
| DateUtils.ContiguousGroupsConcatenate | src/lib/date-utils.ts:48-58 | when equal keys are adjacent, concatenating the groups gives back the input |
| DateUtils.SortedInputIsContiguous | src/lib/date-utils.ts:11-46 | on input sorted newest first, with ordered thresholds and month labels that change only between months, equal keys are adjacent |
| DateUtils.SortedInputRoundTrips | src/lib/date-utils.ts:11-58 | on input sorted newest first, concatenating the groups gives back the input |
| DraftInput.ReadDraft | src/hooks/use-draft-input.ts:20-30 | a parsed stored draft is returned as is; absent, empty or unparsable storage reads as the default draft |
| DraftInput.PersistDraft | src/hooks/use-draft-input.ts:32-37 | each patched field takes the patch's value and each other field keeps the current draft's; what is stored is what is returned |
| DraftInput.PersistThenRead | src/hooks/use-draft-input.ts:20-37 | the next read returns exactly what a write stored |
| DraftInput.PersistIdempotent | src/hooks/use-draft-input.ts:32-37 | writing the same patch twice stores what writing it once does |
| DraftInput.EmitSettingsChange | src/hooks/use-draft-input.ts:51-56 | the cache is cleared and every listener is called in subscription order |
| DraftInput.Subscribe | src/hooks/use-draft-input.ts:58-60 | the listener is appended; storage, cache and pending text are untouched |
| DraftInput.Unsubscribe | src/hooks/use-draft-input.ts:60-62 | the listener is gone; every other listener stays with each of its subscriptions (the multiset of the others is unchanged), and nothing new appears |
| DraftInput.FilterOtherCounts | src/hooks/use-draft-input.ts:60-62 | filtering out one listener removes all its copies and keeps every copy of the others |
| DraftInput.SubscribeUnsubscribe | src/hooks/use-draft-input.ts:58-63 | subscribing then unsubscribing a new listener restores the store |
| DraftInput.GetSettingsSnapshot | src/hooks/use-draft-input.ts:65-73 | a cached snapshot is returned unchanged; otherwise the stored settings are read and cached |
| DraftInput.SnapshotReadsStorage | src/hooks/use-draft-input.ts:65-73 | with a coherent cache, the snapshot equals the stored settings |
| DraftInput.SnapshotStable | src/hooks/use-draft-input.ts:65-73 | taking the snapshot again returns the same value and changes nothing |
| DraftInput.ServerSnapshot | src/hooks/use-draft-input.ts:75-82 | the server snapshot is the default model with search off, and that model is listed |
| DraftInput.DebouncedSetText | src/hooks/use-draft-input.ts:92-100 | a keystroke replaces any pending write; storage is not touched |
| DraftInput.FireTimer | src/hooks/use-draft-input.ts:96-99 | the timer writes the pending text over the draft as stored when it fires, leaving settings as stored |
| DraftInput.FlushText | src/hooks/use-draft-input.ts:103-108 | flushing cancels the pending write without performing it |
| DraftInput.LastWriteWins | src/hooks/use-draft-input.ts:92-100 | of several keystrokes before the timer fires, only the last text reaches storage |
| DraftInput.SetModelId | src/hooks/use-draft-input.ts:129-132 | only the model id changes in storage; the cache is cleared and every listener is notified |
| DraftInput.SetWebSearchEnabled | src/hooks/use-draft-input.ts:134-137 | only the flag changes in storage; the cache is cleared and every listener is notified |
| DraftInput.Clear | src/hooks/use-draft-input.ts:139-143 | the pending write is cancelled and only the text is emptied; no listener is called and the cache is kept |
| DraftInput.InitialText | src/hooks/use-draft-input.ts:119-123 | the initial text is the stored text, or "" when nothing parsable is stored |
| DraftInput.OperationsKeepCacheCoherent | src/hooks/use-draft-input.ts:48-143 | every operation keeps the cached settings equal to the stored ones |
| DraftInput.PersistWithoutEmitIsStale | src/hooks/use-draft-input.ts:129-132 | without the cache bust after a model write, the cached settings would disagree with storage |
| DraftInput.SetModelIdIsVisible | src/hooks/use-draft-input.ts:129-132 | after a model change, the next snapshot shows the new model |
| DraftInput.ClearKeepsSettings | src/hooks/use-draft-input.ts:139-143 | clearing the draft leaves the settings snapshot and the stored settings unchanged |
| PromptComposer.HandleSubmit | src/components/chat-prompt-composer.tsx:147-157 | the submitted text and files are forwarded with the rendered model and flag, which are the stored ones; afterwards only the draft text is emptied, with no pending write left |
| PromptComposer.ToggleWebSearch | src/components/chat-prompt-composer.tsx:143-145 | the stored flag becomes the negation of the rendered one; model and text are untouched and every listener is notified |
| PromptComposer.ToggleTwiceRestores | src/components/chat-prompt-composer.tsx:143-145 | toggling twice restores the stored draft |
| PromptComposer.HandleModelSelect | src/components/chat-prompt-composer.tsx:135-141 | only the model id changes in storage, and the selector closes |
| PromptComposer.DraftSync | src/components/chat-prompt-composer.tsx:103-116 | a text is forwarded iff it differs from the last value seen, and that value then advances to it |
| PromptComposer.SyncForwardsChanges | src/components/chat-prompt-composer.tsx:103-113 | the mount value is never forwarded, and consecutive forwarded texts differ. The final text rendered is the last one forwarded, or the mount value. |
| PromptComposer.SelectedModel | src/components/chat-prompt-composer.tsx:131-133 | a model is shown iff the draft's id is listed, and it is the entry with that id |
| PromptComposer.PickerGroups | src/components/chat-prompt-composer.tsx:225-242 | one group per provider, in table order, each listing exactly that provider's models |
| PromptComposer.PickerOffersEveryModelOnce | src/components/chat-prompt-composer.tsx:225-242 | every listed model is offered in some group, alone |
| ChatInterface.HandleSubmitMessage | src/components/chat-interface.tsx:48-60 | a submission is sent iff it has non-empty text or at least one file, and is then sent unchanged |
| ChatInterface.BlankSubmissionIsDropped | src/components/chat-interface.tsx:50-55 | blank text with no files, or an empty file list, sends nothing |
| ChatInterface.OnData | src/components/chat-interface.tsx:28-36 | only a new-thread part on the root path rewrites it, to "/c/" plus the thread id |
| ChatInterface.OnDataIdempotent | src/components/chat-interface.tsx:33-35 | after a new-thread part the path is not the root, so later parts leave it alone |
| ChatInterface.StreamRewritesToFirstNewThread | src/components/chat-interface.tsx:28-36 | starting at the root, a stream ends at the page of the first thread announced, whatever follows |
| ChatInterface.AwayFromRootStays | src/components/chat-interface.tsx:33 | off the root path no data part changes the location |
| ChatInterface.IsEmptyState | src/components/chat-interface.tsx:46 | the empty state shows iff there are no messages |
| ChatInterface.RenderPart | src/components/chat-interface.tsx:86-96 | a part renders iff it is a text part, and then renders its text |
| ChatInterface.RenderKeepsOnlyText | src/components/chat-interface.tsx:86-96 | a message renders exactly the texts of its text parts, in order |
| ChatInterface.Transport | src/components/chat-interface.tsx:38-43 | every request body carries the page's thread id |
| WorkingMemoryUpdate.Segments | src/components/ai-elements/working-memory-update.tsx:15-18 | one segment per present field, in the order name, traits, notes; an empty string or empty list is not present |
| WorkingMemoryUpdate.FormatMemorySummary | src/components/ai-elements/working-memory-update.tsx:14-20 | with nothing present the summary is "memory updated". A present name opens it and present notes close it. |
| WorkingMemoryUpdate.SummaryCases | src/components/ai-elements/working-memory-update.tsx:14-20 | for each of the eight combinations of present name, traits and notes, the exact summary: the present segments in the order name, traits, notes, with " · " between neighbours, or "memory updated" |
| WorkingMemoryUpdate.NameOnlySummary | src/components/ai-elements/working-memory-update.tsx:16-19 | a name alone summarises to "name: " and the name |
| WorkingMemoryUpdate.NameAndNotesSummary | src/components/ai-elements/working-memory-update.tsx:16-19 | name and notes with an empty trait list give two segments joined by " · " |
| WorkingMemoryUpdate.TraitsOnlySummary | src/components/ai-elements/working-memory-update.tsx:16-19 | an empty name contributes no segment; traits are joined by ", " |
| WorkingMemoryUpdate.Show | src/components/ai-elements/working-memory-update.tsx:22-52 | an available output shows "Remembered" and the summary ("memory updated" without input). An error shows the failure text. Every other state shows the loading text. |
| WorkingMemoryUpdate.EmptyInputReadsAsNone | src/components/ai-elements/working-memory-update.tsx:28 | an input with no fields displays like no input at all |
| MemoryApi.GetWorkingMemory | src/server/memory.ts:11-35 | nothing is returned when there is no memory or nothing (or "") is stored; otherwise the parse of the stored value is returned, itself nothing when it does not parse |
| MemoryApi.UpdateWorkingMemory | src/server/memory.ts:37-53 | the update fails with "Memory not available" iff there is no memory. Otherwise the owner's value becomes the serialised data, and threads, logs and other owners are untouched. |
| MemoryApi.UpdateThenGet | src/server/memory.ts:11-53 | with a codec that reads back what it writes, a read after an update returns the written value |
| Theme.Configure | src/hooks/use-theme.tsx:51-63 | the prop defaults: system on, colour scheme on, key "theme", themes light and dark, and attribute "class". The default theme is "system" iff system themes are on, otherwise "light". |
| Theme.GetTheme | src/hooks/use-theme.tsx:221-230 | nothing on the server; a non-empty stored theme wins; otherwise the fallback |
| Theme.SystemTheme | src/hooks/use-theme.tsx:249-253 | the system theme is dark iff dark is preferred, and is always light or dark |
| Theme.Resolve | src/hooks/use-theme.tsx:69-74 | "system" follows the preference only when system themes are on; any other theme is itself |
| Theme.NameOf | src/hooks/use-theme.tsx:76 | without a name map the theme is its own name; with one, the mapped name, or none when unmapped |
| Theme.HandleAttribute | src/hooks/use-theme.tsx:80-91 | "class" removes every theme class and adds a non-empty name. A data attribute is set to a non-empty name or removed. Any other attribute is ignored. |
| Theme.ColorSchemeFor | src/hooks/use-theme.tsx:96-100 | the resolved theme when it is light or dark, else the default theme when that is, else none |
| Theme.ApplyTheme | src/hooks/use-theme.tsx:67-106 | an absent or empty theme changes nothing; the colour scheme is set only when enabled |
| Theme.HandleAllEffect | src/hooks/use-theme.tsx:80-94 | painting a list of attributes resets the classes once iff "class" is listed. Each listed data attribute holds the name, or is removed without one. Nothing else changes. |
| Theme.ClassModePaints | src/hooks/use-theme.tsx:80-83 | in class mode non-theme classes are kept and no theme class survives but the painted name, which is present iff non-empty; attributes are untouched |
| Theme.DataModePaints | src/hooks/use-theme.tsx:84-90 | in data-attribute mode the attribute holds the name or is removed; classes and other attributes are untouched |
| Theme.ApplyThemeIdempotent | src/hooks/use-theme.tsx:67-106 | painting a theme twice paints what painting it once does |
| Theme.SystemFollowsPreference | src/hooks/use-theme.tsx:72-74 | with system themes and colour scheme on, "system" paints the preferred scheme |
| Theme.ProviderThemes | src/hooks/use-theme.tsx:160 | the exposed themes are the given ones, followed by "system" when system themes are on |
| Theme.SystemOffered | src/hooks/use-theme.tsx:160 | "system" is offered iff system themes are on or it is already a given theme |
| Theme.InitialState | src/hooks/use-theme.tsx:64 | the initial theme is the non-empty stored one, else the default |
| Theme.SetTheme | src/hooks/use-theme.tsx:108-120 | the new theme becomes current and is written under the storage key |
| Theme.HandleStorage | src/hooks/use-theme.tsx:138-148 | events for other keys are ignored. For the key, the new non-empty value is taken, or the default when the key was removed or emptied, and storage agrees with the state. |
| Theme.Effect | src/hooks/use-theme.tsx:150-153 | a forced theme, even an empty one, is painted in place of the current theme |
| Theme.HandleMediaQuery | src/hooks/use-theme.tsx:122-129 | a preference change repaints only for "system" with system themes on and no forced theme |
| Theme.ScriptClasses | src/hooks/use-theme.tsx:269 | without a name map the script removes exactly the theme names |
| Theme.UpdateDom | src/hooks/use-theme.tsx:271-285 | class mode swaps the theme classes for the theme itself. Otherwise the attribute, with a list joined by ",", is set; when that name is `class` (the list `["class"]`), the element's classes become just the theme, or none for an empty theme. The colour scheme is set only for light or dark when enabled. |
| Theme.Script | src/hooks/use-theme.tsx:291-302 | a non-empty forced theme is painted; otherwise the non-empty stored theme or the default, with "system" resolved when enabled |
| Theme.ForcedThemeWins | src/hooks/use-theme.tsx:291-292 | with a non-empty forced theme, neither the effect nor the script depends on the stored or current theme |
| Theme.ScriptMatchesEffect | src/hooks/use-theme.tsx:256-303 | in plain class mode, with no forced theme and a non-empty default, the pre-render script and the first effect paint the same classes |
| SeqUtil.SliceBound | src/components/regenerate-button.tsx:19 | a bound within the length is kept, one past the end clamps to the length, and a negative one counts from the end, clamped at 0 |
| SeqUtil.Slice | src/components/regenerate-button.tsx:19 | `slice` keeps the elements from the clamped start to the clamped end: the exact result for in-range bounds, an end past the length, a negative end and a start at or past the length, and an empty result whenever the clamped end is not after the clamped start |
| SeqUtil.Join | src/components/ai-elements/working-memory-update.tsx:17-19 | no parts join to ""; one part joins to itself; two parts join around the separator; the first part opens the result and the last part closes it |
| SeqUtil.JoinSnoc | src/components/ai-elements/working-memory-update.tsx:17-19 | joining one more part appends the separator and that part, which fixes the join of any number of parts |
| SeqUtil.JoinThree | src/components/ai-elements/working-memory-update.tsx:17-19 | three parts join with the separator between neighbours |

## Left out

- The language models are not modelled. The assistant's reply, its tool calls and the web search are outside the model. The route's agent stream is a single opaque `Merged` element of the trace. The titler's partial and final titles are parameters.
- The memory library's own behaviour is assumed, not modelled from its source:
  - `createThread` on an existing id overwrites that thread (an upsert);
  - `recall` always returns a list, so the `!storedMessages` guard in `handleRegeneration` never fires;
  - `recall` with no paging option returns the thread's whole log in order, with no `lastMessages` or `perPage` window. If it returned only a recent window, a target older than it would not be found. `ChatHelpers.RegenerationTruncates`, `RegenerateButton.ClientMatchesServerTruncation`, `Threads.CloneIsInclusivePrefix` and the found-target case of `Threads.CloneThread` rest on this;
  - `cloneThread` copies the source log, keeping only the listed ids when a filter is given.
- The agent persists the turn's messages to memory during its stream. That write is not modelled: the turn's `mem` holds only the thread and title changes.
- Request and stored-value decoding are left out: JSON parsing, zod validation of field types, and `request.json()`. A decoded request is a record whose optional fields are `Option`s. A stored draft or working memory either parses to a complete value or does not (`Corrupt`, or the `parse` parameter returning `None`). A stored draft with missing fields is not modelled.
- ChatRoute.Post: the route never validates its body. A missing `messages`, or a `threadId` or `modelId` of another type, is not modelled. The thread id is a string or absent (`null` from the root page), and the model id a string or absent.
- ChatRoute.Post: how the memory library treats a missing thread id is assumed. `getThreadById` finds nothing, and each `createThread` call without an id creates a thread under an id the library generates. Those ids are the parameters `freshId` and `titleId`; id generation itself is not modelled.
- The route does not call `parseChatRequest`, `resolveThread`, `handleRegeneration` or `generateThreadTitle`. The model states their relation as lemmas (`GetOrCreateMatchesResolveThread`, `ClientMatchesServerTruncation`). The route's title parts have no envelope id, unlike the helper's. The route titles the thread on every turn, not only on the first. It never sets `webSearchEnabled` in the request context, so search is never offered on this path.
- Time is left out:
  - Timestamps are integers. ISO-string conversion and invalid dates are not modelled.
  - The date-grouping thresholds and the month-label function are parameters: calendar arithmetic and `Intl` formatting are outside the model.
  - The debounce timer is one pending write, and its 300 ms delay is not modelled.
- Concurrency is left out. Concurrent turns on the same new thread, React render scheduling and effect ordering are outside the model. The `useSyncExternalStore` subscription protocol is reduced to the listener list and the cache.
- Browser faults are left out. Storage that throws, such as private mode or a full quota, is not modelled. DOM exceptions are not modelled: adding an empty class, or setting an attribute whose name is invalid.
- Theme.UpdateDom: for an attribute list the script passes the array to `setAttribute`, which converts it to a comma-joined name. That name is modelled with `Join`, but its DOM validity is not. When the name is `class`, the value is taken as a single class: splitting a theme name that contains whitespace into several classes is not modelled.
- Parts of the theme provider are left out:
  - `disableTransitionOnChange` and the temporary style element;
  - the script's `nonce` and serialisation;
  - the nesting check of `ThemeProvider`;
  - the `useTheme` fallback context;
  - the functional form of `setTheme`.
- Theme.ScriptMatchesEffect: stated only for plain class mode with no name map. With a name map the script adds the raw theme, while the effect adds the mapped name, so they differ by design.
- Theme.Effect: `forcedTheme ?? theme` keeps an empty forced theme, and the effect then paints nothing. The script's `if (forcedTheme)` treats the same value as absent. Both behaviours are modelled as written.
- RegenerateButton.PrecedingMessages: with the target absent, `slice(0, -1)` drops the last message. That case is modelled as written, though the button is only rendered for messages in the list.
- Threads.GetThreads: the listing the memory returns is a parameter; `listThreads` and its owner filter are not modelled. The mapping of a missing title to `null` is the identity on `Option`.
- Visual components are left out, as is everything the UI library does: markup, icons, the shimmer animation, the model selector's search box, and the chat client's state machine (`useChat` status transitions and `sendMessage`).
