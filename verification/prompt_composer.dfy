/** The prompt composer: what it forwards on submit, the web-search toggle,
    model selection, the draft text sync and the model picker's groups. */
module PromptComposer {
  import opened Wrappers
  import Models
  import DraftInput

  /** An attached file, by its URL. */
  datatype FileRef = FileRef(url: string)

  /** What the prompt input hands over on submit. */
  datatype PromptMessage = PromptMessage(text: string, files: seq<FileRef>)

  /** The submitted message with the chosen model and search flag added. */
  datatype ComposedMessage = ComposedMessage(text: string, files: seq<FileRef>, modelId: string, webSearchEnabled: bool)

  /** `handleSubmit`: forwards the message extended with the settings the
      composer rendered with, then clears the draft. */
  function HandleSubmit(st: DraftInput.Store, message: PromptMessage): (r: (ComposedMessage, DraftInput.Store))
    ensures r.0.text == message.text && r.0.files == message.files
    ensures DraftInput.CacheCoherent(st) ==>
      && r.0.modelId == DraftInput.ReadDraft(st.slot).modelId
      && r.0.webSearchEnabled == DraftInput.ReadDraft(st.slot).webSearchEnabled
    ensures DraftInput.ReadDraft(r.1.slot) == DraftInput.ReadDraft(st.slot).(text := "")
    ensures r.1.pending.None?
    ensures r.1.listeners == st.listeners
  {
    var (st1, settings) := DraftInput.GetSettingsSnapshot(st);
    var sent := ComposedMessage(message.text, message.files, settings.modelId, settings.webSearchEnabled);
    (sent, DraftInput.Clear(st1))
  }

  /** `handleToggleWebSearch`: writes the negation of the rendered flag. */
  function ToggleWebSearch(st: DraftInput.Store): (r: (DraftInput.Store, seq<nat>))
    ensures DraftInput.CacheCoherent(st) ==>
      DraftInput.ReadDraft(r.0.slot).webSearchEnabled == !DraftInput.ReadDraft(st.slot).webSearchEnabled
    ensures DraftInput.ReadDraft(r.0.slot).modelId == DraftInput.ReadDraft(st.slot).modelId
    ensures DraftInput.ReadDraft(r.0.slot).text == DraftInput.ReadDraft(st.slot).text
    ensures r.1 == st.listeners
  {
    var (st1, settings) := DraftInput.GetSettingsSnapshot(st);
    DraftInput.SetWebSearchEnabled(st1, !settings.webSearchEnabled)
  }

  /** Toggling twice restores the stored draft. */
  lemma ToggleTwiceRestores(st: DraftInput.Store)
    requires DraftInput.CacheCoherent(st)
    ensures DraftInput.ReadDraft(ToggleWebSearch(ToggleWebSearch(st).0).0.slot) == DraftInput.ReadDraft(st.slot)
  {
    var st1 := ToggleWebSearch(st).0;
    assert DraftInput.CacheCoherent(st1);
  }

  /** `handleModelSelect`: writes the model id and closes the selector. */
  function HandleModelSelect(st: DraftInput.Store, selectorOpen: bool, id: string)
    : (r: (DraftInput.Store, bool, seq<nat>))
    ensures DraftInput.ReadDraft(r.0.slot) == DraftInput.ReadDraft(st.slot).(modelId := id)
    ensures !r.1
    ensures r.2 == st.listeners
  {
    var (st1, notified) := DraftInput.SetModelId(st, id);
    (st1, false, notified)
  }

  /** `DraftSync`'s effect: given the last value it saw and the current
      one, the new last value and the text it forwards, if any. */
  function DraftSync(prev: string, value: string): (r: (string, Option<string>))
    ensures r.0 == value
    ensures r.1.Some? <==> value != prev
    ensures r.1.Some? ==> r.1.value == value
  {
    if value != prev then (value, Some(value)) else (prev, None)
  }

  /** The texts `DraftSync` forwards over a run of renders, starting from
      the value seen at mount. */
  function SyncAll(prev: string, values: seq<string>): seq<string>
    decreases |values|
  {
    if |values| == 0 then []
    else
      var (next, out) := DraftSync(prev, values[0]);
      (if out.Some? then [out.value] else []) + SyncAll(next, values[1..])
  }

  /** The mount value is never forwarded; consecutive forwarded texts
      differ; each differs from the mount value when it is the first; and
      the last text forwarded (or the mount value, if none) is the last value
      rendered, so storage ends up with the final text. */
  lemma {:induction false} SyncForwardsChanges(prev: string, values: seq<string>)
    ensures SyncAll(prev, []) == []
    ensures |SyncAll(prev, values)| > 0 ==> SyncAll(prev, values)[0] != prev
    ensures forall i :: 0 < i < |SyncAll(prev, values)| ==> SyncAll(prev, values)[i] != SyncAll(prev, values)[i - 1]
    ensures |values| > 0 ==>
      (if |SyncAll(prev, values)| > 0 then SyncAll(prev, values)[|SyncAll(prev, values)| - 1] else prev)
        == values[|values| - 1]
    decreases |values|
  {
    if |values| > 0 {
      var v := values[0];
      var rest := SyncAll(v, values[1..]);
      SyncForwardsChanges(v, values[1..]);
      if v != prev {
        var out := SyncAll(prev, values);
        assert out == [v] + rest;
        forall i | 1 < i < |out|
          ensures out[i] != out[i - 1]
        {
          assert out[i] == rest[i - 1] && out[i - 1] == rest[i - 2];
        }
      } else {
        assert SyncAll(prev, values) == rest;
      }
    }
  }

  /** `selectedModel`: the table entry for the draft's model id. */
  function SelectedModel(modelId: string): (r: Option<Models.ModelOption>)
    ensures r.Some? <==> Models.IsKnownModel(modelId)
    ensures r.Some? ==> r.value in Models.MODELS && r.value.id == modelId
  {
    Models.FindModel(modelId)
  }

  /** The selector's contents: one group per entry of `MODEL_GROUPS`, in that
      order, each listing that chef's models. */
  function PickerGroups(): (gs: seq<(string, seq<Models.ModelOption>)>)
    ensures |gs| == |Models.MODEL_GROUPS|
    ensures forall g :: 0 <= g < |gs| ==>
      gs[g].0 == Models.MODEL_GROUPS[g]
      && forall m :: m in gs[g].1 <==> m in Models.MODELS && m.chef == gs[g].0
  {
    var gs := seq(|Models.MODEL_GROUPS|, g requires 0 <= g < |Models.MODEL_GROUPS| =>
      (Models.MODEL_GROUPS[g], Models.ModelsOfGroup(Models.MODEL_GROUPS[g])));
    assert forall g :: 0 <= g < |gs| ==> gs[g].1 == Models.ModelsOfGroup(gs[g].0);
    gs
  }

  /** Every model is offered exactly once, under its own chef. */
  lemma PickerOffersEveryModelOnce()
    ensures forall i :: 0 <= i < |Models.MODELS| ==>
      exists g :: 0 <= g < |PickerGroups()| && PickerGroups()[g].1 == [Models.MODELS[i]]
  {
    Models.OneModelPerGroup();
    var gs := PickerGroups();
    assert |gs| == |Models.MODELS|;
    forall i | 0 <= i < |Models.MODELS|
      ensures exists g :: 0 <= g < |PickerGroups()| && PickerGroups()[g].1 == [Models.MODELS[i]]
    {
      assert gs[i].1 == Models.ModelsOfGroup(Models.MODEL_GROUPS[i]) == [Models.MODELS[i]];
    }
  }
}
