/** Types the Bedrock adapter shares with its caller: the model description,
    the abort signal, and the options `streamAnthropicBedrock` accepts. */
module BedrockTypes {
  import opened Wrappers

  /** A model entry: its id, the provider that serves it, whether it can
      reason, its output-token ceiling and the input kinds it accepts
      (`"text"`, `"image"`). */
  datatype Model = Model(
    id: string,
    provider: string,
    reasoning: bool,
    maxTokens: int,
    input: seq<string>)

  /** The part of an `AbortSignal` the adapter reads. */
  datatype AbortSignal = AbortSignal(aborted: bool)

  /** `toolChoice`: one of the three keywords, or a named tool. */
  datatype ToolChoice = ChoiceAuto | ChoiceAny | ChoiceNone | ChoiceTool(name: string)

  /** `AnthropicBedrockOptions` without the AWS credential fields, which only
      the client construction reads. */
  datatype BedrockOptions = BedrockOptions(
    temperature: Option<real>,
    maxTokens: Option<int>,
    signal: Option<AbortSignal>,
    apiKey: Option<string>,
    thinkingEnabled: Option<bool>,
    thinkingBudgetTokens: Option<int>,
    toolChoice: Option<ToolChoice>)

  /** `n || fallback` for an optional number: `undefined` and `0` are falsy. */
  function OrIfFalsy(n: Option<int>, fallback: int): (r: int)
    ensures n.Some? && n.value != 0 ==> r == n.value
    ensures n.None? || n.value == 0 ==> r == fallback
  {
    if n.Some? && n.value != 0 then n.value else fallback
  }

  /** `options?.signal?.aborted`, read as a boolean. */
  predicate Aborted(signal: Option<AbortSignal>) {
    signal.Some? && signal.value.aborted
  }
}
