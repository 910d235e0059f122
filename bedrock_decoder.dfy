/** The streaming loop of `streamAnthropicBedrock` as the code runs it: an
    assistant message whose content, usage and stop reason are updated in
    place event by event, and the log of what was pushed to the caller's
    stream.  Each step is proved to do what `BedrockStream` says it means. */
module BedrockDecoder {
  import opened Wrappers
  import opened JsonValue
  import opened BedrockTypes
  import opened BedrockStream
  import opened BedrockStreamFacts

  class Decoder {
    var content: seq<Block>
    var usage: Usage
    var stopReason: StopReason
    var errorMessage: Option<string>
    /** Everything pushed to the caller's stream so far, in order. */
    var emitted: seq<StreamEvent>
    const parse: Parser
    const pricing: Pricing

    /** The message and the pushed events as a value. */
    function Snap(): State
      reads this
    {
      State(content, usage, stopReason, errorMessage, emitted)
    }

    /** The `output` message as created before the request is built. */
    constructor (parse: Parser, pricing: Pricing)
      ensures Snap() == Initial
      ensures this.parse == parse && this.pricing == pricing
    {
      content := [];
      usage := Usage(0, 0, 0, 0, 0, ZeroCost);
      stopReason := Stop;
      errorMessage := None;
      emitted := [];
      this.parse := parse;
      this.pricing := pricing;
    }

    /** `stream.push(ev)`, and `stream.end()` for `EvEnd`. */
    method Push(ev: StreamEvent)
      modifies this
      ensures Snap() == Emit(old(Snap()), ev)
    {
      emitted := emitted + [ev];
    }

    /** `blocks.findIndex((b) => b.index === index)`. */
    method FindBlock(index: int) returns (k: int)
      ensures k == FindIndex(content, index)
      ensures k >= 0 ==> content[k].index == Some(index)
    {
      k := 0;
      while k < |content| && content[k].index != Some(index)
        invariant 0 <= k <= |content|
        invariant forall j :: 0 <= j < k ==> content[j].index != Some(index)
      {
        k := k + 1;
      }
      FindIndexAt(content, index, k);
      if k == |content| {
        k := -1;
      }
    }

    /** The four counters overwritten from a report, their total, and
        `calculateCost`. */
    method Count(report: UsageReport)
      modifies this
      ensures Snap() == old(Snap()).(usage := Counted(report, pricing))
    {
      usage := usage.(input := OrIfFalsy(report.inputTokens, 0));
      usage := usage.(output := OrIfFalsy(report.outputTokens, 0));
      usage := usage.(cacheRead := OrIfFalsy(report.cacheReadInputTokens, 0));
      usage := usage.(cacheWrite := OrIfFalsy(report.cacheCreationInputTokens, 0));
      usage := usage.(totalTokens := usage.input + usage.output + usage.cacheRead + usage.cacheWrite);
      usage := usage.(cost := pricing(usage.input, usage.output, usage.cacheRead, usage.cacheWrite));
    }

    /** `content_block_start`. */
    method StartBlock(index: int, kind: BlockKind)
      modifies this
      ensures Snap() == OnBlockStart(old(Snap()), index, kind)
    {
      match kind
      case KindText =>
        content := content + [TextBlock("", Some(index))];
        Push(EvTextStart(|content| - 1));
      case KindThinking =>
        content := content + [ThinkingBlock("", "", Some(index))];
        Push(EvThinkingStart(|content| - 1));
      case KindToolUse(id, name, input) =>
        content := content + [ToolCallBlock(id, name, input, Some(""), Some(index))];
        Push(EvToolCallStart(|content| - 1));
      case KindOther =>
    }

    /** `content_block_delta`. */
    method ApplyDelta(index: int, d: Delta)
      modifies this
      ensures Snap() == OnDelta(old(Snap()), index, d, parse)
    {
      var k := FindBlock(index);
      if k < 0 {
        return;
      }
      var block := content[k];
      match d
      case TextDelta(t) =>
        if block.TextBlock? {
          content := content[k := TextBlock(block.text + t, block.index)];
          Push(EvTextDelta(k, t));
        }
      case ThinkingDelta(t) =>
        if block.ThinkingBlock? {
          content := content[k := ThinkingBlock(block.thinking + t, block.thinkingSignature, block.index)];
          Push(EvThinkingDelta(k, t));
        }
      case InputJsonDelta(p) =>
        if block.ToolCallBlock? {
          var json := block.partialJson.GetOr("") + p;
          content := content[k := ToolCallBlock(block.id, block.name, parse(json), Some(json), block.index)];
          Push(EvToolCallDelta(k, p));
        }
      case SignatureDelta(sig) =>
        if block.ThinkingBlock? {
          content := content[k := ThinkingBlock(block.thinking, block.thinkingSignature + sig, block.index)];
        }
      case OtherDelta =>
    }

    /** `content_block_stop`. */
    method StopBlock(index: int)
      modifies this
      ensures Snap() == OnBlockStop(old(Snap()), index, parse)
    {
      var k := FindBlock(index);
      if k >= 0 {
        var block := Closed(content[k], parse);
        content := content[k := block];
        Push(EndEvent(k, block));
      }
    }

    /** One iteration of the `for await` loop. */
    method Step(e: VendorEvent)
      modifies this
      ensures Snap() == Next(old(Snap()), e, parse, pricing)
    {
      match e
      case MessageStart(report) => Count(report);
      case ContentBlockStart(index, kind) => StartBlock(index, kind);
      case ContentBlockDelta(index, d) => ApplyDelta(index, d);
      case ContentBlockStop(index) => StopBlock(index);
      case MessageDelta(reason, report) =>
        if reason.Some? && reason.value != "" {
          stopReason := MapStopReason(reason.value);
        }
        Count(report);
      case OtherEvent =>
    }

    /** After the loop: `done`, or the `catch` block, which removes every
        index in place before recording the error. */
    method Finish(aborted: bool, failure: Option<string>)
      modifies this
      ensures Snap() == Terminate(old(Snap()), aborted, failure)
    {
      var thrown := failure;
      if thrown.None? && aborted {
        thrown := Some(AbortedMessage);
      }
      if thrown.None? && (stopReason == Aborted || stopReason == Error) {
        thrown := Some(UnknownErrorMessage);
      }
      if thrown.None? {
        Push(EvDone(stopReason));
        Push(EvEnd);
        return;
      }
      var i := 0;
      while i < |content|
        invariant 0 <= i <= |content| == |old(content)|
        invariant forall j :: 0 <= j < i ==> content[j] == Unindexed(old(content)[j])
        invariant forall j :: i <= j < |content| ==> content[j] == old(content)[j]
        invariant usage == old(usage) && stopReason == old(stopReason) && emitted == old(emitted)
        invariant errorMessage == old(errorMessage)
      {
        content := content[i := Unindexed(content[i])];
        i := i + 1;
      }
      stopReason := if aborted then Aborted else Error;
      errorMessage := thrown;
      Push(EvError(stopReason));
      Push(EvEnd);
    }
  }

  /** `streamAnthropicBedrock` once the transport is reduced to a finite
      event sequence: `setupFailure` is an error thrown while building the
      client or the request, `failure` one thrown by the transport after the
      given events, `aborted` the signal's state once the loop is over. */
  method StreamAnthropicBedrock(
    setupFailure: Option<string>, events: seq<VendorEvent>, failure: Option<string>, aborted: bool,
    parse: Parser, pricing: Pricing) returns (d: Decoder)
    ensures fresh(d)
    ensures d.Snap() == Run(setupFailure, events, failure, aborted, parse, pricing)
  {
    d := new Decoder(parse, pricing);
    if setupFailure.Some? {
      d.Finish(aborted, setupFailure);
      return;
    }
    d.Push(EvStart);
    var i := 0;
    while i < |events|
      invariant 0 <= i <= |events|
      invariant d.parse == parse && d.pricing == pricing
      invariant d.Snap() == Fold(Emit(Initial, EvStart), events[..i], parse, pricing)
    {
      d.Step(events[i]);
      assert events[..i + 1][..i] == events[..i];
      i := i + 1;
    }
    assert events[..i] == events;
    d.Finish(aborted, failure);
  }
}
