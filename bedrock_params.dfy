/** The request body `streamAnthropicBedrock` sends: the converted messages,
    the output-token limit, the system prompt with its cache marker, the
    tools, the thinking settings and the tool choice.  `transformMessages`
    is passed in. */
module BedrockParams {
  import opened Wrappers
  import opened JsonValue
  import opened BedrockTypes
  import opened BedrockWire
  import opened BedrockMessages
  import opened StreamDispatch

  /** The fallback thinking budget for a missing or zero `thinkingBudgetTokens`. */
  const FallbackThinkingBudget: int := 1024

  const TwoTo31: int := 0x8000_0000
  const TwoTo32: int := 0x1_0000_0000

  /** The part of the pi-ai `Context` the request is built from. */
  datatype Context = Context(systemPrompt: Option<string>, messages: seq<Message>, tools: Option<seq<Tool>>)

  /** A `system` entry: the prompt text, with the ephemeral cache marker. */
  datatype SystemBlock = SystemBlock(text: string, cache: bool)

  /** Everything the request body holds except `stream: true`. */
  datatype Params = Params(
    model: string,
    messages: seq<WireMessage>,
    maxTokens: int,
    system: Option<seq<SystemBlock>>,
    temperature: Option<real>,
    tools: Option<seq<WireTool>>,
    thinkingBudget: Option<int>,
    toolChoice: Option<ToolChoice>)

  /** JavaScript `a / b` followed by dropping the fraction: rounds toward zero. */
  function TruncDiv(a: int, b: int): (q: int)
    requires b > 0
    ensures a >= 0 ==> q == a / b
    ensures a < 0 ==> q == -((-a) / b)
    ensures q * b <= a || a < 0
    ensures (a >= 0 ==> 0 <= a - q * b < b) && (a < 0 ==> 0 <= q * b - a < b)
  {
    if a >= 0 then a / b else -((-a) / b)
  }

  /** JavaScript `x | 0` on an integral number: the signed 32-bit value
      congruent to `x` modulo 2^32. */
  function ToInt32(x: int): (r: int)
    ensures -TwoTo31 <= r < TwoTo31
    ensures (x - r) % TwoTo32 == 0
    ensures -TwoTo31 <= x < TwoTo31 ==> r == x
  {
    (x + TwoTo31) % TwoTo32 - TwoTo31
  }

  /** The limit used when none is requested: a third of the model's ceiling,
      truncated to a 32-bit integer. */
  function DefaultLimit(modelMaxTokens: int): (n: int)
    ensures 0 <= modelMaxTokens < 3 * TwoTo31 ==> n == modelMaxTokens / 3
    ensures 0 <= modelMaxTokens < 3 * TwoTo31 ==> 3 * n <= modelMaxTokens < 3 * n + 3
  {
    ToInt32(TruncDiv(modelMaxTokens, 3))
  }

  /** `options?.x` for a possibly missing options object. */
  function Opts(options: Option<BedrockOptions>): BedrockOptions {
    options.GetOr(BedrockOptions(None, None, None, None, None, None, None))
  }

  /** `max_tokens`: the requested limit unless it is missing or zero. */
  function SentMaxTokens(model: Model, options: Option<BedrockOptions>): (n: int)
    ensures Opts(options).maxTokens.Some? && Opts(options).maxTokens.value != 0 ==> n == Opts(options).maxTokens.value
    ensures Opts(options).maxTokens.None? || Opts(options).maxTokens.value == 0 ==> n == DefaultLimit(model.maxTokens)
  {
    OrIfFalsy(Opts(options).maxTokens, DefaultLimit(model.maxTokens))
  }

  /** `thinking.budget_tokens`, present only when thinking is enabled and the
      model can reason; a missing or zero budget is sent as 1024. */
  function SentThinkingBudget(model: Model, options: Option<BedrockOptions>): (b: Option<int>)
    ensures b.Some? <==> Opts(options).thinkingEnabled == Some(true) && model.reasoning
    ensures b.Some? ==> b.value != 0
    ensures b.Some? && Opts(options).thinkingBudgetTokens.Some? && Opts(options).thinkingBudgetTokens.value != 0 ==>
              b.value == Opts(options).thinkingBudgetTokens.value
    ensures b.Some? && (Opts(options).thinkingBudgetTokens.None? || Opts(options).thinkingBudgetTokens.value == 0) ==>
              b.value == FallbackThinkingBudget
  {
    if Opts(options).thinkingEnabled == Some(true) && model.reasoning then
      Some(OrIfFalsy(Opts(options).thinkingBudgetTokens, FallbackThinkingBudget))
    else None
  }

  /** `buildParams`. */
  method BuildParams(
    model: Model,
    context: Context,
    options: Option<BedrockOptions>,
    transform: (seq<Message>, Model) -> seq<Message>) returns (params: Params)
    ensures params.model == model.id
    ensures params.messages == MarkCache(WireOf(transform(context.messages, model), AcceptsImages(model)))
    ensures params.maxTokens == SentMaxTokens(model, options)
    // a non-empty system prompt is sent as one cached text block
    ensures context.systemPrompt.Some? && context.systemPrompt.value != "" <==> params.system.Some?
    ensures params.system.Some? ==> params.system.value == [SystemBlock(context.systemPrompt.value, true)]
    ensures params.temperature == Opts(options).temperature
    // tools are sent whenever the context has a list, even an empty one
    ensures params.tools.Some? <==> context.tools.Some?
    ensures params.tools.Some? ==> params.tools.value == ConvertTools(context.tools.value)
    ensures params.thinkingBudget == SentThinkingBudget(model, options)
    ensures params.toolChoice == Opts(options).toolChoice
  {
    var messages := ConvertMessages(context.messages, model, transform);
    params := Params(model.id, messages, SentMaxTokens(model, options), None, None, None, None, None);
    if context.systemPrompt.Some? && context.systemPrompt.value != "" {
      params := params.(system := Some([SystemBlock(context.systemPrompt.value, true)]));
    }
    if Opts(options).temperature.Some? {
      params := params.(temperature := Opts(options).temperature);
    }
    if context.tools.Some? {
      params := params.(tools := Some(ConvertTools(context.tools.value)));
    }
    if Opts(options).thinkingEnabled == Some(true) && model.reasoning {
      params := params.(thinkingBudget := Some(OrIfFalsy(Opts(options).thinkingBudgetTokens, FallbackThinkingBudget)));
    }
    if Opts(options).toolChoice.Some? {
      params := params.(toolChoice := Opts(options).toolChoice);
    }
  }

  /** What a reasoning request routed through `streamWithBedrock` finally
      sends.  The planned limit is sent as is unless it is zero, and the
      planned budget unless it is zero; a budget shrunk to zero is sent as
      1024.  So the budget stays below the limit exactly when the planned
      limit exceeds 1024; a planned limit between 1 and 1024 goes out with
      a budget of 1024, no smaller than the limit. */
  lemma DispatchedThinkingBudget(model: Model, options: SimpleStreamOptions)
    requires model.provider == BedrockProvider && model.reasoning && options.reasoning.Some?
    ensures var sent := StreamWithBedrock(model, Some(options)).bedrockOptions;
            var plan := PlanTokens(options.maxTokens, options.reasoning.value, model.maxTokens);
            var limit := SentMaxTokens(model, Some(sent));
            var budget := SentThinkingBudget(model, Some(sent));
            budget.Some? &&
            (plan.maxTokens != 0 ==> limit == plan.maxTokens) &&
            (plan.budget != 0 ==> budget.value == plan.budget) &&
            (plan.budget == 0 ==> budget.value == FallbackThinkingBudget) &&
            (plan.maxTokens > 0 ==> (budget.value < limit <==> plan.maxTokens > FallbackThinkingBudget))
  {
    var sent := StreamWithBedrock(model, Some(options)).bedrockOptions;
    var plan := PlanTokens(options.maxTokens, options.reasoning.value, model.maxTokens);
    assert sent.maxTokens == Some(plan.maxTokens) && sent.thinkingBudgetTokens == Some(plan.budget);
    var b := ThinkingBudget(options.reasoning.value);
    if plan.maxTokens > FallbackThinkingBudget && plan.maxTokens <= b {
      assert plan.budget == plan.maxTokens - MinOutputTokens;
    }
  }
}
