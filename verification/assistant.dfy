/** The assistant agent's per-request model and tool selection, read from
    the request context. */
module Assistant {
  import opened Wrappers
  import Models

  /** The keys of the request context the agent reads. An absent key is
      `None`. */
  datatype RequestContext = RequestContext(modelId: Option<string>, webSearchEnabled: Option<bool>)

  const EMPTY_CONTEXT := RequestContext(None, None)

  datatype Tool = WebSearch

  /** `modelId || DEFAULT_MODEL_ID`: an absent or empty id falls back. */
  function SelectModel(ctx: RequestContext): (model: string)
    ensures ctx.modelId.Some? && ctx.modelId.value != "" ==> model == ctx.modelId.value
    ensures ctx.modelId.None? || ctx.modelId.value == "" ==> model == Models.DEFAULT_MODEL_ID
    ensures model != ""
  {
    if ctx.modelId.Some? && ctx.modelId.value != "" then ctx.modelId.value
    else Models.DEFAULT_MODEL_ID
  }

  /** Web search is offered exactly when the context flag is truthy. */
  function SelectTools(ctx: RequestContext): (tools: set<Tool>)
    ensures WebSearch in tools <==> ctx.webSearchEnabled == Some(true)
    ensures tools <= {WebSearch}
  {
    if ctx.webSearchEnabled == Some(true) then {WebSearch} else {}
  }

  /** Whenever the context holds a listed model id (or none at all), the
      agent runs a listed model. */
  lemma {:induction false} SelectedModelIsKnown(ctx: RequestContext)
    requires ctx.modelId.None? || Models.IsKnownModel(ctx.modelId.value)
    ensures Models.IsKnownModel(SelectModel(ctx))
  {
    Models.DefaultModelIsKnown();
  }
}
