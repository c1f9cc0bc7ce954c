/** The static model table: the selectable language models, the provider
    groups they are shown under, and the default model. */
module Models {
  import opened Wrappers
  import SeqUtil

  datatype ModelOption = ModelOption(chef: string, chefSlug: string, id: string, name: string)

  const MODEL_GROUPS: seq<string> := ["OpenAI", "Anthropic", "Google", "Moonshot AI"]

  const MODELS: seq<ModelOption> := [
    ModelOption("OpenAI", "openai", "openrouter/openai/gpt-5.2", "GPT-5.2"),
    ModelOption("Anthropic", "anthropic", "openrouter/anthropic/claude-sonnet-4.5", "Claude 4.5 Sonnet"),
    ModelOption("Google", "google", "openrouter/google/gemini-3-flash-preview", "Gemini 3 Flash"),
    ModelOption("Moonshot AI", "moonshotai", "openrouter/moonshotai/kimi-k2.5", "Kimi K2.5")
  ]

  const DEFAULT_MODEL_ID: string := "openrouter/moonshotai/kimi-k2.5"

  /** `MODELS.some((m) => m.id === id)`. */
  predicate IsKnownModel(id: string) {
    exists i :: 0 <= i < |MODELS| && MODELS[i].id == id
  }

  /** The default model is one of the listed models. */
  lemma DefaultModelIsKnown()
    ensures IsKnownModel(DEFAULT_MODEL_ID)
  {
    assert MODELS[3].id == DEFAULT_MODEL_ID;
  }

  /** Every model's chef names one of the groups. */
  lemma ChefsAreGroups()
    ensures forall i :: 0 <= i < |MODELS| ==> MODELS[i].chef in MODEL_GROUPS
  {
  }

  /** The model ids, as written, are pairwise distinct. */
  lemma ModelIdsDistinct()
    ensures forall i, j :: 0 <= i < j < |MODELS| ==> MODELS[i].id != MODELS[j].id
  {
  }

  /** The soft fallback of an unknown or absent model id: a known id passes
      through and anything else becomes the default, so the outcome is
      always a listed model. */
  function ResolveModelId(raw: Option<string>): (id: string)
    ensures IsKnownModel(id)
    ensures raw.Some? && IsKnownModel(raw.value) ==> id == raw.value
    ensures raw.None? || !IsKnownModel(raw.value) ==> id == DEFAULT_MODEL_ID
  {
    DefaultModelIsKnown();
    if raw.Some? && IsKnownModel(raw.value) then raw.value else DEFAULT_MODEL_ID
  }

  /** `MODELS.find((m) => m.id === id)`: the first entry with that id. */
  function FindModel(id: string): (r: Option<ModelOption>)
    ensures r.Some? <==> IsKnownModel(id)
    ensures r.Some? ==> r.value in MODELS && r.value.id == id
  {
    FindModelIn(MODELS, id)
  }

  function FindModelIn(models: seq<ModelOption>, id: string): (r: Option<ModelOption>)
    ensures r.Some? <==> exists i :: 0 <= i < |models| && models[i].id == id
    ensures r.Some? ==> r.value in models && r.value.id == id
    ensures r.Some? ==> exists i :: 0 <= i < |models| && models[i] == r.value
                                    && forall j :: 0 <= j < i ==> models[j].id != id
  {
    if |models| == 0 then None
    else if models[0].id == id then Some(models[0])
    else
      var r := FindModelIn(models[1..], id);
      if r.Some? then
        ghost var i :| 0 <= i < |models[1..]| && models[1..][i] == r.value
                      && forall j :: 0 <= j < i ==> models[1..][j].id != id;
        assert models[i + 1] == r.value;
        r
      else r
  }

  /** The models listed under one provider group, in table order. */
  function ModelsOfGroup(chef: string): (r: seq<ModelOption>)
    ensures forall m :: m in r <==> m in MODELS && m.chef == chef
  {
    SeqUtil.Filter(MODELS, OfChef(chef))
  }

  /** The predicate "this model is shown under `chef`". */
  function OfChef(chef: string): ModelOption -> bool {
    (m: ModelOption) => m.chef == chef
  }

  /** As written, each group holds exactly one model, and the groups list
      the models in table order. */
  lemma OneModelPerGroup()
    ensures forall g :: 0 <= g < |MODEL_GROUPS| ==> ModelsOfGroup(MODEL_GROUPS[g]) == [MODELS[g]]
  {
    forall g | 0 <= g < |MODEL_GROUPS|
      ensures ModelsOfGroup(MODEL_GROUPS[g]) == [MODELS[g]]
    {
      SeqUtil.FilterSingle(MODELS, OfChef(MODEL_GROUPS[g]), g);
    }
  }
}
