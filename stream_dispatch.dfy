/** `streamWithBedrock`: models served by the `anthropic-bedrock` provider go
    to the Bedrock adapter, everything else to the library's generic
    `streamSimple`.  On the Bedrock route a reasoning level becomes a
    thinking budget, and the output-token limit is raised to make room for
    it without passing the model's own ceiling. */
module StreamDispatch {
  import opened Wrappers
  import opened BedrockTypes

  const BedrockProvider: string := "anthropic-bedrock"
  const DefaultMaxTokens: int := 32000
  const MinOutputTokens: int := 1024

  datatype Reasoning = Minimal | Low | Medium | High | XHigh

  /** `SimpleStreamOptions`, as far as the dispatcher reads it. */
  datatype SimpleStreamOptions = SimpleStreamOptions(
    temperature: Option<real>,
    maxTokens: Option<int>,
    signal: Option<AbortSignal>,
    apiKey: Option<string>,
    reasoning: Option<Reasoning>)

  /** Which stream function is called, and with which options.  The model
      and the context are passed on unchanged on both routes. */
  datatype Route =
    | ToBedrock(bedrockOptions: BedrockOptions)
    | ToSimple(simpleOptions: Option<SimpleStreamOptions>)

  /** The thinking budget of each reasoning level; `xhigh` is clamped to `high`. */
  function ThinkingBudget(r: Reasoning): (b: int)
    ensures 1024 <= b <= 16384
    ensures r == High || r == XHigh ==> b == 16384
  {
    match r
    case Minimal => 1024
    case Low => 2048
    case Medium => 8192
    case High => 16384
    case XHigh => 16384
  }

  /** The order of the reasoning levels. */
  function Rank(r: Reasoning): nat {
    match r
    case Minimal => 0
    case Low => 1
    case Medium => 2
    case High => 3
    case XHigh => 4
  }

  /** A higher reasoning level never gets a smaller budget. */
  lemma BudgetMonotone(r1: Reasoning, r2: Reasoning)
    requires Rank(r1) <= Rank(r2)
    ensures ThinkingBudget(r1) <= ThinkingBudget(r2)
  {
  }

  /** The output-token limit and thinking budget sent with a reasoning request. */
  datatype TokenPlan = TokenPlan(maxTokens: int, budget: int)

  function Min(a: int, b: int): int { if a <= b then a else b }
  function Max(a: int, b: int): int { if a >= b then a else b }

  /** The limit is `(requested || 32000) + budget`, capped at the model's
      ceiling; when that leaves no room above the budget, the budget shrinks
      to leave 1024 tokens of output, but not below zero. */
  function PlanTokens(requested: Option<int>, reasoning: Reasoning, modelMaxTokens: int): (p: TokenPlan)
    ensures p.maxTokens <= modelMaxTokens
    ensures p.maxTokens <= OrIfFalsy(requested, DefaultMaxTokens) + ThinkingBudget(reasoning)
    ensures p.maxTokens == modelMaxTokens || p.maxTokens == OrIfFalsy(requested, DefaultMaxTokens) + ThinkingBudget(reasoning)
    ensures p.budget >= 0
    ensures p.maxTokens >= 0 ==> p.budget <= p.maxTokens
    ensures p.maxTokens > 0 ==> p.budget < p.maxTokens
    ensures p.maxTokens > ThinkingBudget(reasoning) ==> p.budget == ThinkingBudget(reasoning)
    ensures p.maxTokens <= ThinkingBudget(reasoning) ==> p.budget == Max(0, p.maxTokens - MinOutputTokens)
  {
    var budget := ThinkingBudget(reasoning);
    var maxTokens := Min(OrIfFalsy(requested, DefaultMaxTokens) + budget, modelMaxTokens);
    if maxTokens <= budget then TokenPlan(maxTokens, Max(0, maxTokens - MinOutputTokens))
    else TokenPlan(maxTokens, budget)
  }

  /** Thinking is requested only when the caller asks for a reasoning level
      and the model can reason. */
  predicate WantsThinking(model: Model, options: Option<SimpleStreamOptions>) {
    options.Some? && options.value.reasoning.Some? && model.reasoning
  }

  /** `streamWithBedrock`, reduced to the call it makes. */
  function StreamWithBedrock(model: Model, options: Option<SimpleStreamOptions>): (r: Route)
    ensures r.ToBedrock? <==> model.provider == BedrockProvider
    ensures r.ToSimple? ==> r.simpleOptions == options
    ensures r.ToBedrock? ==>
              var o := r.bedrockOptions;
              o.toolChoice.None? &&
              (options.None? ==> o.temperature.None? && o.signal.None? && o.apiKey.None?) &&
              (options.Some? ==> o.temperature == options.value.temperature && o.signal == options.value.signal &&
                                 o.apiKey == options.value.apiKey)
    // without thinking, the requested limit passes through and no thinking field is set
    ensures r.ToBedrock? && !WantsThinking(model, options) ==>
              r.bedrockOptions.thinkingEnabled.None? && r.bedrockOptions.thinkingBudgetTokens.None? &&
              r.bedrockOptions.maxTokens == (if options.Some? then options.value.maxTokens else None)
    // with thinking, both numbers come from the plan
    ensures r.ToBedrock? && WantsThinking(model, options) ==>
              var p := PlanTokens(options.value.maxTokens, options.value.reasoning.value, model.maxTokens);
              r.bedrockOptions.thinkingEnabled == Some(true) &&
              r.bedrockOptions.thinkingBudgetTokens == Some(p.budget) &&
              r.bedrockOptions.maxTokens == Some(p.maxTokens)
  {
    if model.provider == BedrockProvider then
      var base := if options.Some? then
          BedrockOptions(options.value.temperature, options.value.maxTokens, options.value.signal,
                         options.value.apiKey, None, None, None)
        else BedrockOptions(None, None, None, None, None, None, None);
      if WantsThinking(model, options) then
        var p := PlanTokens(options.value.maxTokens, options.value.reasoning.value, model.maxTokens);
        ToBedrock(base.(thinkingEnabled := Some(true), thinkingBudgetTokens := Some(p.budget),
                        maxTokens := Some(p.maxTokens)))
      else ToBedrock(base)
    else ToSimple(options)
  }

  /** `isBedrockModel`. */
  predicate IsBedrockModel(model: Model) {
    model.provider == BedrockProvider
  }

  /** `isBedrockModel` is exactly the test the dispatcher routes on. */
  lemma IsBedrockModelAgreesWithRoute(model: Model, options: Option<SimpleStreamOptions>)
    ensures IsBedrockModel(model) <==> StreamWithBedrock(model, options).ToBedrock?
  {
  }

  /** Whatever was requested, the limit sent to Bedrock with thinking on
      never exceeds the model's ceiling and always exceeds the budget when
      it is positive. */
  lemma ThinkingLimitWithinCeiling(model: Model, options: SimpleStreamOptions)
    requires model.provider == BedrockProvider && model.reasoning && options.reasoning.Some?
    ensures var o := StreamWithBedrock(model, Some(options)).bedrockOptions;
            o.maxTokens.Some? && o.thinkingBudgetTokens.Some? &&
            o.maxTokens.value <= model.maxTokens && 0 <= o.thinkingBudgetTokens.value &&
            (o.maxTokens.value > 0 ==> o.thinkingBudgetTokens.value < o.maxTokens.value)
  {
  }
}
