/** The meaning of the streaming loop in `streamAnthropicBedrock`: how each
    Anthropic Messages streaming event changes the assistant message being
    built and which events are pushed to the caller's stream, and how the
    call ends.  `parseStreamingJson` and `calculateCost` are parameters. */
module BedrockStream {
  import opened Wrappers
  import opened JsonValue
  import opened BedrockTypes

  // ----- the assistant message being built -----

  datatype StopReason = Stop | Length | ToolUse | Error | Aborted

  /** A content block.  `index` is the vendor's block index, present only
      while the block is open; `partialJson` is the raw argument text of a
      tool call, present only until the block stops. */
  datatype Block =
    | TextBlock(text: string, index: Option<int>)
    | ThinkingBlock(thinking: string, thinkingSignature: string, index: Option<int>)
    | ToolCallBlock(id: string, name: string, arguments: Json, partialJson: Option<string>, index: Option<int>)

  /** The dollar cost `calculateCost` writes into the usage record. */
  datatype Cost = Cost(input: real, output: real, cacheRead: real, cacheWrite: real, total: real)

  datatype Usage = Usage(input: int, output: int, cacheRead: int, cacheWrite: int, totalTokens: int, cost: Cost)

  /** `calculateCost(model, usage)` for the fixed model: a cost from the four counters. */
  type Pricing = (int, int, int, int) -> Cost

  /** `parseStreamingJson`: the best-effort value of a partial JSON text. */
  type Parser = string -> Json

  // ----- what the vendor sends -----

  /** The token counts an event reports; a missing count is `None`. */
  datatype UsageReport = UsageReport(
    inputTokens: Option<int>,
    outputTokens: Option<int>,
    cacheReadInputTokens: Option<int>,
    cacheCreationInputTokens: Option<int>)

  /** The `content_block` of a `content_block_start`. */
  datatype BlockKind = KindText | KindThinking | KindToolUse(id: string, name: string, input: Json) | KindOther

  /** The `delta` of a `content_block_delta`. */
  datatype Delta =
    | TextDelta(text: string)
    | ThinkingDelta(thinking: string)
    | InputJsonDelta(partialJson: string)
    | SignatureDelta(signature: string)
    | OtherDelta

  datatype VendorEvent =
    | MessageStart(usage: UsageReport)
    | ContentBlockStart(index: int, kind: BlockKind)
    | ContentBlockDelta(index: int, delta: Delta)
    | ContentBlockStop(index: int)
    | MessageDelta(stopReason: Option<string>, usage: UsageReport)
    | OtherEvent

  // ----- what the adapter pushes -----

  /** The events pushed to the caller's stream, without their `partial`
      reference to the message being built; `EvEnd` is `stream.end()`. */
  datatype StreamEvent =
    | EvStart
    | EvTextStart(contentIndex: int)
    | EvTextDelta(contentIndex: int, delta: string)
    | EvTextEnd(contentIndex: int, content: string)
    | EvThinkingStart(contentIndex: int)
    | EvThinkingDelta(contentIndex: int, delta: string)
    | EvThinkingEnd(contentIndex: int, content: string)
    | EvToolCallStart(contentIndex: int)
    | EvToolCallDelta(contentIndex: int, delta: string)
    | EvToolCallEnd(contentIndex: int, toolCall: Block)
    | EvDone(reason: StopReason)
    | EvError(reason: StopReason)
    | EvEnd

  /** The message being built together with everything pushed so far. */
  datatype State = State(
    content: seq<Block>,
    usage: Usage,
    stopReason: StopReason,
    errorMessage: Option<string>,
    emitted: seq<StreamEvent>)

  const ZeroCost: Cost := Cost(0.0, 0.0, 0.0, 0.0, 0.0)

  /** The message before anything happens: no content, zero usage, `stop`. */
  const Initial: State := State([], Usage(0, 0, 0, 0, 0, ZeroCost), Stop, None, [])

  const AbortedMessage: string := "Request was aborted"
  const UnknownErrorMessage: string := "An unknown error occurred"

  // ----- stop reasons -----

  /** `mapStopReason`: `max_tokens`, `tool_use` and `refusal` have their own
      reasons; `end_turn`, `pause_turn`, `stop_sequence` and every code it
      does not know become `stop`. */
  function MapStopReason(reason: string): (r: StopReason)
    ensures r == Length <==> reason == "max_tokens"
    ensures r == ToolUse <==> reason == "tool_use"
    ensures r == Error <==> reason == "refusal"
    ensures r == Stop <==> reason != "max_tokens" && reason != "tool_use" && reason != "refusal"
    ensures r != Aborted
  {
    if reason == "end_turn" then Stop
    else if reason == "max_tokens" then Length
    else if reason == "tool_use" then ToolUse
    else if reason == "refusal" then Error
    else if reason == "pause_turn" then Stop
    else if reason == "stop_sequence" then Stop
    else Stop
  }

  // ----- one event -----

  /** `blocks.findIndex(b => b.index === index)`: the first block open under
      `index`, or -1. */
  function FindIndex(content: seq<Block>, index: int): (k: int)
    ensures -1 <= k < |content|
    ensures k >= 0 ==> content[k].index == Some(index)
  {
    if content == [] then -1
    else if content[0].index == Some(index) then 0
    else
      var k := FindIndex(content[1..], index);
      if k < 0 then -1 else k + 1
  }

  /** Counts from a report: a missing or zero count is 0, and the total is
      their sum; the cost is whatever `calculateCost` makes of them. */
  function Counted(report: UsageReport, pricing: Pricing): Usage {
    var input := OrIfFalsy(report.inputTokens, 0);
    var output := OrIfFalsy(report.outputTokens, 0);
    var cacheRead := OrIfFalsy(report.cacheReadInputTokens, 0);
    var cacheWrite := OrIfFalsy(report.cacheCreationInputTokens, 0);
    Usage(input, output, cacheRead, cacheWrite, input + output + cacheRead + cacheWrite,
          pricing(input, output, cacheRead, cacheWrite))
  }

  function Emit(s: State, ev: StreamEvent): State {
    s.(emitted := s.emitted + [ev])
  }

  /** `content_block_start`: text, thinking and tool-use blocks are opened
      empty under the vendor's index; any other kind is ignored. */
  function OnBlockStart(s: State, index: int, kind: BlockKind): State {
    var k := |s.content|;
    match kind
    case KindText => Emit(s.(content := s.content + [TextBlock("", Some(index))]), EvTextStart(k))
    case KindThinking => Emit(s.(content := s.content + [ThinkingBlock("", "", Some(index))]), EvThinkingStart(k))
    case KindToolUse(id, name, input) =>
      Emit(s.(content := s.content + [ToolCallBlock(id, name, input, Some(""), Some(index))]), EvToolCallStart(k))
    case KindOther => s
  }

  /** Whether a delta applies to a block of this kind. */
  predicate Accepts(b: Block, d: Delta) {
    match d
    case TextDelta(_) => b.TextBlock?
    case ThinkingDelta(_) => b.ThinkingBlock?
    case InputJsonDelta(_) => b.ToolCallBlock?
    case SignatureDelta(_) => b.ThinkingBlock?
    case OtherDelta => false
  }

  /** `content_block_delta`: the delta is appended to the first block open
      under its index when that block has the matching kind.  Text, thinking
      and argument deltas are pushed; the arguments are re-parsed from the
      whole argument text on every argument delta; a signature delta is
      appended silently. */
  function OnDelta(s: State, index: int, d: Delta, parse: Parser): State {
    var k := FindIndex(s.content, index);
    if k < 0 || !Accepts(s.content[k], d) then s
    else
      var b := s.content[k];
      match d
      case TextDelta(t) => Emit(s.(content := s.content[k := b.(text := b.text + t)]), EvTextDelta(k, t))
      case ThinkingDelta(t) =>
        Emit(s.(content := s.content[k := b.(thinking := b.thinking + t)]), EvThinkingDelta(k, t))
      case InputJsonDelta(p) =>
        var json := b.partialJson.GetOr("") + p;
        Emit(s.(content := s.content[k := b.(partialJson := Some(json), arguments := parse(json))]),
             EvToolCallDelta(k, p))
      case SignatureDelta(sig) =>
        s.(content := s.content[k := b.(thinkingSignature := b.thinkingSignature + sig)])
  }

  /** The block a `content_block_stop` leaves behind: no index, and for a
      tool call the arguments parsed from the full text, which is dropped. */
  function Closed(b: Block, parse: Parser): Block {
    match b
    case ToolCallBlock(id, name, _, partialJson, _) => ToolCallBlock(id, name, parse(partialJson.GetOr("")), None, None)
    case _ => Unindexed(b)
  }

  /** `delete block.index`. */
  function Unindexed(b: Block): Block {
    match b
    case TextBlock(text, _) => TextBlock(text, None)
    case ThinkingBlock(thinking, signature, _) => ThinkingBlock(thinking, signature, None)
    case ToolCallBlock(id, name, arguments, partialJson, _) => ToolCallBlock(id, name, arguments, partialJson, None)
  }

  function EndEvent(k: int, b: Block): StreamEvent {
    match b
    case TextBlock(text, _) => EvTextEnd(k, text)
    case ThinkingBlock(thinking, _, _) => EvThinkingEnd(k, thinking)
    case ToolCallBlock(_, _, _, _, _) => EvToolCallEnd(k, b)
  }

  /** `content_block_stop`: the first block open under the index is closed
      and its end event pushed. */
  function OnBlockStop(s: State, index: int, parse: Parser): State {
    var k := FindIndex(s.content, index);
    if k < 0 then s
    else
      var b := Closed(s.content[k], parse);
      Emit(s.(content := s.content[k := b]), EndEvent(k, b))
  }

  /** One iteration of the `for await` loop. */
  function Next(s: State, e: VendorEvent, parse: Parser, pricing: Pricing): State {
    match e
    case MessageStart(report) => s.(usage := Counted(report, pricing))
    case ContentBlockStart(index, kind) => OnBlockStart(s, index, kind)
    case ContentBlockDelta(index, d) => OnDelta(s, index, d, parse)
    case ContentBlockStop(index) => OnBlockStop(s, index, parse)
    case MessageDelta(reason, report) =>
      var s' := if reason.Some? && reason.value != "" then s.(stopReason := MapStopReason(reason.value)) else s;
      s'.(usage := Counted(report, pricing))
    case OtherEvent => s
  }

  /** The loop over a finite event sequence. */
  function Fold(s: State, events: seq<VendorEvent>, parse: Parser, pricing: Pricing): State
    decreases |events|
  {
    if events == [] then s
    else Next(Fold(s, events[..|events| - 1], parse, pricing), events[|events| - 1], parse, pricing)
  }

  // ----- the end of the call -----

  /** The error the `try` block throws after the loop, if any: the
      transport's own error, then an abort, then an error stop reason. */
  function Thrown(s: State, aborted: bool, failure: Option<string>): Option<string> {
    if failure.Some? then failure
    else if aborted then Some(AbortedMessage)
    else if s.stopReason == Aborted || s.stopReason == Error then Some(UnknownErrorMessage)
    else None
  }

  function StripIndices(content: seq<Block>): (r: seq<Block>)
    ensures |r| == |content|
    ensures forall k :: 0 <= k < |r| ==> r[k] == Unindexed(content[k])
  {
    seq(|content|, k requires 0 <= k < |content| => Unindexed(content[k]))
  }

  /** `done` and the end of the stream, or, once something was thrown, the
      `catch` block: every index removed, `aborted` or `error` after the
      signal, the message recorded, `error` and the end of the stream. */
  function Terminate(s: State, aborted: bool, failure: Option<string>): State {
    var thrown := Thrown(s, aborted, failure);
    if thrown.None? then s.(emitted := s.emitted + [EvDone(s.stopReason), EvEnd])
    else
      var reason := if aborted then Aborted else Error;
      s.(content := StripIndices(s.content), stopReason := reason, errorMessage := thrown,
         emitted := s.emitted + [EvError(reason), EvEnd])
  }

  /** The whole call: a failure while building the client or the request
      goes straight to the `catch` block; otherwise `start` is pushed, the
      events are consumed, and the call ends. */
  function Run(
    setupFailure: Option<string>, events: seq<VendorEvent>, failure: Option<string>, aborted: bool,
    parse: Parser, pricing: Pricing): State
  {
    if setupFailure.Some? then Terminate(Initial, aborted, setupFailure)
    else Terminate(Fold(Emit(Initial, EvStart), events, parse, pricing), aborted, failure)
  }
}
